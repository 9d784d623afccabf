/**
 * The club-info edit form: text fields seeded from the loaded club, a
 * category dropdown, an image picker seeded when the stored image URL carries
 * an object key, and a submit that issues the update only when every required
 * value is present and otherwise marks the missing fields.
 */
module MoimEditInfoScreen {
  import opened Wrappers
  import opened JsString

  const TITLE_ERROR: string := "모임 이름을 입력해주세요."
  const LOCATION_ERROR: string := "모임 활동 지역을 입력해주세요."

  /** The separator before the object key in a stored image URL. */
  const KEY_SEPARATOR: string := "com/"

  /** The club as the space-info query returns it. */
  datatype MoimInfo = MoimInfo(
    title: string,
    address: string,
    description: string,
    category: Option<string>,
    profileImageUrl: Option<string>)

  /** The update request the submit issues. */
  datatype UpdateRequest = UpdateRequest(
    moimId: int,
    title: string,
    address: string,
    category: string,
    description: string,
    imageKeyName: Option<string>)

  /** A submit either issues the update, or is rejected (with or without the introduction toast). */
  datatype SubmitOutcome = Mutate(request: UpdateRequest) | Rejected(introductionToast: bool)

  /** JavaScript truthiness of an optional string: present and non-empty. */
  predicate Truthy(s: Option<string>)
  {
    s.Some? && s.value != ""
  }

  /** `a || b` on optional strings. */
  function Or(a: Option<string>, b: Option<string>): (r: Option<string>)
    ensures Truthy(a) ==> r == a
    ensures !Truthy(a) ==> r == b
  {
    if Truthy(a) then a else b
  }

  /** `moimData?.category`. */
  function MoimCategory(moimData: Option<MoimInfo>): Option<string>
  {
    if moimData.Some? then moimData.value.category else None
  }

  /** `moimData?.profileImageUrl`. */
  function ProfileImageUrl(moimData: Option<MoimInfo>): Option<string>
  {
    if moimData.Some? then moimData.value.profileImageUrl else None
  }

  /**
   * `url?.split('com/') && url?.split('com/')[1] ? true : false`: a URL is an
   * image URL exactly when "com/" occurs in it and the text after its first
   * occurrence is non-empty and does not start with "com/" again.
   */
  predicate IsImgUri(url: Option<string>)
    ensures IsImgUri(url) <==>
            url.Some? &&
            exists i :: FirstOccurrence(url.value, KEY_SEPARATOR, i) &&
                        i + |KEY_SEPARATOR| < |url.value| &&
                        !Occurs(url.value, KEY_SEPARATOR, i + |KEY_SEPARATOR|)
  {
    url.Some? &&
    var parts := Split(url.value, KEY_SEPARATOR);
    SecondPartNonEmpty(url.value, KEY_SEPARATOR);
    |parts| > 1 && parts[1] != ""
  }

  /** `CATEGORY_LIST[selected] || null`. */
  function SelectedCategoryFor(categoryList: map<string, string>, selected: string): (r: Option<string>)
    ensures r.Some? <==> selected in categoryList && categoryList[selected] != ""
    ensures r.Some? ==> r.value == categoryList[selected]
  {
    if selected in categoryList && categoryList[selected] != "" then Some(categoryList[selected]) else None
  }

  /** `moimData?.category && CATEGORIES_LIST[moimData?.category]`, with every falsy value read as `None`. */
  function InitialCategory(moimData: Option<MoimInfo>, categoriesList: map<string, string>): (r: Option<string>)
    ensures r.Some? ==> Truthy(MoimCategory(moimData)) && MoimCategory(moimData).value in categoriesList
    ensures r.Some? ==> r.value == categoriesList[MoimCategory(moimData).value]
    ensures Truthy(MoimCategory(moimData)) && MoimCategory(moimData).value in categoriesList ==>
              r == Some(categoriesList[MoimCategory(moimData).value])
  {
    var c := MoimCategory(moimData);
    if Truthy(c) && c.value in categoriesList then Some(categoriesList[c.value]) else None
  }

  /** The screen-local state of the edit form. */
  class EditInfoForm {
    /** `route.params.id`; as a number it is truthy unless zero. */
    const moimId: int
    /** The space-info query's current data: undefined until the club has loaded. */
    var moimData: Option<MoimInfo>
    /** `CATEGORY_LIST`: dropdown label to request category. */
    const categoryList: map<string, string>
    /** The image the picker was seeded with. */
    const initialImage: Option<string>

    var title: Option<string>
    var location: Option<string>
    var introduction: Option<string>
    var errTitle: string
    var errLocation: string
    var selectedCategory: Option<string>
    var category: Option<string>
    var isPressed: bool

    /** Each error field is empty or holds its own message. */
    ghost predicate Valid()
      reads this`errTitle, this`errLocation
    {
      (errTitle == "" || errTitle == TITLE_ERROR) &&
      (errLocation == "" || errLocation == LOCATION_ERROR)
    }

    /** The `useState` initial values, taken from the club as loaded at first render. */
    constructor (moimId: int, moimData: Option<MoimInfo>,
                 categoryList: map<string, string>, categoriesList: map<string, string>)
      ensures Valid()
      ensures this.moimId == moimId && this.moimData == moimData && this.categoryList == categoryList
      ensures initialImage == (if IsImgUri(ProfileImageUrl(moimData)) then ProfileImageUrl(moimData) else None)
      ensures title == (if moimData.Some? then Some(moimData.value.title) else None)
      ensures location == (if moimData.Some? then Some(moimData.value.address) else None)
      ensures introduction == (if moimData.Some? then Some(moimData.value.description) else None)
      ensures errTitle == "" && errLocation == ""
      ensures selectedCategory == None && !isPressed
      ensures category == InitialCategory(moimData, categoriesList)
    {
      this.moimId := moimId;
      this.moimData := moimData;
      this.categoryList := categoryList;
      var url := ProfileImageUrl(moimData);
      initialImage := if IsImgUri(url) then url else None;
      isPressed := false;
      selectedCategory := None;
      category := InitialCategory(moimData, categoriesList);
      title := if moimData.Some? then Some(moimData.value.title) else None;
      location := if moimData.Some? then Some(moimData.value.address) else None;
      introduction := if moimData.Some? then Some(moimData.value.description) else None;
      errTitle, errLocation := "", "";
    }

    /**
     * The space-info query delivers new data (the club loads or is refetched).
     * Only `moimData` changes: the form fields keep what they were seeded with.
     */
    method ClubDataChanged(data: Option<MoimInfo>)
      modifies this`moimData
      ensures moimData == data
    {
      moimData := data;
    }

    /** The three text fields are filled in. */
    predicate TextFilled()
      reads this
    {
      Truthy(title) && Truthy(location) && Truthy(introduction)
    }

    /** The submit guard: every text field, the club id and the club's category are truthy. */
    predicate CanSubmit()
      reads this
      ensures CanSubmit() ==> title.Some? && location.Some? && introduction.Some?
      ensures CanSubmit() ==> Truthy(SubmittedCategory())
    {
      TextFilled() && moimId != 0 && Truthy(MoimCategory(moimData))
    }

    /** `selectedCategory || moimData?.category`. */
    function SubmittedCategory(): (c: Option<string>)
      reads this
      ensures Truthy(selectedCategory) ==> c == selectedCategory
      ensures !Truthy(selectedCategory) ==> c == MoimCategory(moimData)
    {
      Or(selectedCategory, MoimCategory(moimData))
    }

    /** The location field's error text: shown only while the location is empty. */
    function ShownLocationError(): (e: string)
      reads this
      ensures Truthy(location) ==> e == ""
      ensures !Truthy(location) ==> e == errLocation
    {
      if Truthy(location) then "" else errLocation
    }

    method SetTitle(text: string)
      modifies this`title
      ensures title == Some(text)
    {
      title := Some(text);
    }

    method SetLocation(text: string)
      modifies this`location
      ensures location == Some(text)
    {
      location := Some(text);
    }

    method SetIntroduction(text: string)
      modifies this`introduction
      ensures introduction == Some(text)
    {
      introduction := Some(text);
    }

    /** `handleSelectedCategory`: remember the label and the category it maps to. */
    method HandleSelectedCategory(selected: string)
      modifies this`selectedCategory, this`category
      ensures selectedCategory == SelectedCategoryFor(categoryList, selected)
      ensures category == Some(selected)
    {
      selectedCategory := SelectedCategoryFor(categoryList, selected);
      category := Some(selected);
    }

    /** `handleCategory`: open or close the dropdown. */
    method HandleCategory()
      modifies this`isPressed
      ensures isPressed == !old(isPressed)
    {
      isPressed := !isPressed;
    }

    /**
     * `hahndleOnSubmit`: issue the update when the guard holds; otherwise set
     * the title error if the title is empty and the location error if the
     * location is empty, leave the other error as it was, and raise the
     * introduction toast if the introduction is empty.
     */
    method HandleOnSubmit(uploadUri: Option<string>) returns (outcome: SubmitOutcome)
      requires Valid()
      modifies this`errTitle, this`errLocation
      ensures Valid()
      ensures outcome.Mutate? <==> CanSubmit()
      ensures outcome.Mutate? ==>
                SubmittedCategory().Some? &&
                outcome.request == UpdateRequest(moimId, title.value, location.value,
                                                 SubmittedCategory().value, introduction.value, uploadUri) &&
                errTitle == old(errTitle) && errLocation == old(errLocation)
      ensures outcome.Rejected? ==>
                errTitle == (if Truthy(title) then old(errTitle) else TITLE_ERROR) &&
                errLocation == (if Truthy(location) then old(errLocation) else LOCATION_ERROR) &&
                outcome.introductionToast == !Truthy(introduction)
      ensures TextFilled() && !CanSubmit() ==>
                outcome == Rejected(false) && errTitle == old(errTitle) && errLocation == old(errLocation)
      ensures outcome.Rejected? && !Truthy(location) ==> ShownLocationError() == LOCATION_ERROR
    {
      if CanSubmit() {
        var c := SubmittedCategory();
        outcome := Mutate(UpdateRequest(moimId, title.value, location.value, c.value, introduction.value, uploadUri));
      } else {
        if !Truthy(title) {
          errTitle := TITLE_ERROR;
        }
        if !Truthy(location) {
          errLocation := LOCATION_ERROR;
        }
        outcome := Rejected(!Truthy(introduction));
      }
    }
  }

  /** Pressing the dropdown twice leaves it as it was. */
  method PressDropdownTwice(form: EditInfoForm)
    modifies form`isPressed
    ensures form.isPressed == old(form.isPressed)
  {
    form.HandleCategory();
    form.HandleCategory();
  }

  /**
   * A form mounted before the club loaded still submits once the club has
   * loaded and the three texts are typed: the guard and the category read the
   * live club data, not the seeding snapshot.
   */
  method SubmitAfterLateLoad(club: MoimInfo, categoryList: map<string, string>, categoriesList: map<string, string>,
                             title: string, location: string, introduction: string)
    returns (outcome: SubmitOutcome)
    requires Truthy(club.category)
    requires title != "" && location != "" && introduction != ""
    ensures outcome == Mutate(UpdateRequest(7, title, location, club.category.value, introduction, None))
  {
    var form := new EditInfoForm(7, None, categoryList, categoriesList);
    form.ClubDataChanged(Some(club));
    form.SetTitle(title);
    form.SetLocation(location);
    form.SetIntroduction(introduction);
    outcome := form.HandleOnSubmit(None);
  }
}
