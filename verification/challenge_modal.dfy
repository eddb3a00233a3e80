/** The challenge editor of src/components/ChallengeModal/ChallengeModal.tsx:
    its form state, the submit handler (`handleAdd`), the group selector
    (`handleChange`, `addUserGroup`) and the effect that prefills or clears
    the form when the editor switches between adding and editing. The
    `onAdd`/`onEdit` callbacks become the call the handler returns. */
module ChallengeModal {
  import opened Wrappers
  import opened Types
  import JsText
  import JsArray
  import MainPage

  const FillAllFields := "Необходимо заполнить все поля"

  /** The select value that opens the input for a new group. */
  const CustomOption := "custom"

  /** What a submit hands to the page: `onEdit` (the target through
      `Number`, `None` for `NaN`), `onAdd` (the target through `parseInt`),
      or nothing. */
  datatype ModalCall =
    | EditCall(title: string, editTarget: Option<int>, group: string, isSingleUse: bool)
    | AddCall(title: string, target: int, group: string, isSingleUse: bool)
    | NoCall

  /** The add-mode guard: a non-blank title, a target that `parseInt` reads
      as a positive number, a non-blank group. */
  predicate AddAllowed(title: string, target: string, group: string) {
    && JsText.Trim(title) != ""
    && JsText.ParseInt(target).Some? && JsText.ParseInt(target).value > 0
    && JsText.Trim(group) != ""
  }

  /** The guard in plain terms: the title and the group each hold a
      character that is not white space, and the target starts (after white
      space and a sign) with digits denoting a positive number. */
  lemma AddAllowedIff(title: string, target: string, group: string)
    ensures AddAllowed(title, target, group) <==>
      && !JsText.AllWhitespace(title) && !JsText.AllWhitespace(group)
      && JsText.ParseInt(target).Some? && JsText.ParseInt(target).value > 0
  {
    JsText.TrimEmptyIff(title);
    JsText.TrimEmptyIff(group);
  }

  /** `dailyChallenges.find(item => item.id === challengeId)` */
  function FindById(cs: seq<Challenge>, id: string): (r: Option<Challenge>)
    ensures r.None? <==> forall i :: 0 <= i < |cs| ==> cs[i].id != Some(id)
    ensures r.Some? ==> exists i :: 0 <= i < |cs| && cs[i] == r.value && r.value.id == Some(id)
                          && forall j :: 0 <= j < i ==> cs[j].id != Some(id)
  {
    if cs == [] then None
    else if cs[0].id == Some(id) then Some(cs[0])
    else
      var r := FindById(cs[1..], id);
      assert forall i :: 1 <= i < |cs| ==> cs[i] == cs[1..][i - 1];
      r
  }

  /** The `reduce` of `addUserGroup`: each truthy group appended unless it is
      already in the accumulator. */
  function UniqueGroups(cs: seq<Challenge>): seq<string> {
    if cs == [] then []
    else
      var acc := UniqueGroups(cs[..|cs| - 1]);
      var item := cs[|cs| - 1];
      if HasGroup(item) && item.group.value !in acc then acc + [item.group.value] else acc
  }

  /** The truthy groups of the list, in list order, repeats included. */
  function GroupsOf(cs: seq<Challenge>): (r: seq<string>)
    ensures forall g :: g in r <==> g in MainPage.GroupNames(cs)
  {
    if cs == [] then []
    else
      var p := cs[..|cs| - 1];
      var item := cs[|cs| - 1];
      MainPage.GroupNamesSnoc(p, item);
      JsArray.LastSplit(cs);
      GroupsOf(p) + (if HasGroup(item) then [item.group.value] else [])
  }

  /** The fold is the first-occurrence list of the groups. */
  lemma {:induction false} UniqueGroupsAreFirstOccurrences(cs: seq<Challenge>)
    ensures UniqueGroups(cs) == JsArray.FirstOccurrences(GroupsOf(cs))
  {
    if cs != [] {
      var p := cs[..|cs| - 1];
      var item := cs[|cs| - 1];
      UniqueGroupsAreFirstOccurrences(p);
      var gs := GroupsOf(p);
      var acc := UniqueGroups(p);
      assert acc == JsArray.FirstOccurrences(gs);
      if HasGroup(item) {
        var g := item.group.value;
        var whole := gs + [g];
        assert GroupsOf(cs) == whole;
        assert whole[..|whole| - 1] == gs;
        assert JsArray.FirstOccurrences(whole) == if g in acc then acc else acc + [g];
        assert UniqueGroups(cs) == if g in acc then acc else acc + [g];
      } else {
        assert GroupsOf(cs) == gs;
        assert UniqueGroups(cs) == acc;
      }
    }
  }

  /** `addUserGroup()`: the existing groups, each once in order of first
      appearance, then the option that creates a new group. */
  function AddUserGroup(cs: seq<Challenge>): (options: seq<string>)
    ensures |options| >= 1 && options[|options| - 1] == CustomOption
    ensures JsArray.NoDup(options[..|options| - 1])
    ensures forall g :: g in options[..|options| - 1] <==> g in MainPage.GroupNames(cs)
    ensures |options| == |MainPage.GroupNames(cs)| + 1
  {
    var groups := UniqueGroups(cs);
    UniqueGroupsAreFirstOccurrences(cs);
    var options := groups + [CustomOption];
    assert options[..|options| - 1] == groups;
    assert (set g | g in groups) == MainPage.GroupNames(cs);
    JsArray.NoDupCardinality(groups);
    options
  }

  /** A group keeps the slot of its first appearance: adding challenges
      later in the list only appends new groups after the known ones. */
  lemma GroupOptionsExtend(cs: seq<Challenge>, k: nat)
    requires k <= |cs|
    ensures |UniqueGroups(cs[..k])| <= |UniqueGroups(cs)|
    ensures UniqueGroups(cs[..k]) == UniqueGroups(cs)[..|UniqueGroups(cs[..k])|]
  {
    UniqueGroupsAreFirstOccurrences(cs);
    UniqueGroupsAreFirstOccurrences(cs[..k]);
    GroupsOfPrefix(cs, k);
    JsArray.FirstOccurrencesPrefix(GroupsOf(cs), |GroupsOf(cs[..k])|);
  }

  lemma {:induction false} GroupsOfPrefix(cs: seq<Challenge>, k: nat)
    requires k <= |cs|
    ensures |GroupsOf(cs[..k])| <= |GroupsOf(cs)|
    ensures GroupsOf(cs[..k]) == GroupsOf(cs)[..|GroupsOf(cs[..k])|]
  {
    if k < |cs| {
      var p := cs[..|cs| - 1];
      assert cs[..k] == p[..k];
      GroupsOfPrefix(p, k);
    } else {
      assert cs[..k] == cs;
    }
  }

  /** The form state of the editor. */
  class ChallengeEditor {
    var title: string
    var target: string
    var group: string
    var error: string
    var groupVisible: bool
    var isSingleUse: bool

    constructor ()
      ensures title == "" && target == "" && group == "" && error == ""
      ensures !groupVisible && !isSingleUse
    {
      title := "";
      target := "";
      group := "";
      error := "";
      groupVisible := false;
      isSingleUse := false;
    }

    /** `handleAdd`. In edit mode with a signed-in user the form goes to
        `onEdit` as it stands, unchecked. Otherwise the add guard decides:
        on success `onAdd` gets the parsed target, and title, target and the
        single-use flag are cleared while the group is kept; on failure
        nothing is called and the error is set. */
    method HandleAdd(edit: bool, userId: Option<string>) returns (call: ModalCall)
      modifies this
      ensures edit && userId.Some? && userId.value != "" ==>
        && call == EditCall(old(title), JsText.ToNumber(old(target)), old(group), old(isSingleUse))
        && title == old(title) && target == old(target) && isSingleUse == old(isSingleUse)
        && error == old(error)
      ensures !(edit && userId.Some? && userId.value != "") && AddAllowed(old(title), old(target), old(group)) ==>
        && call == AddCall(old(title), JsText.ParseInt(old(target)).value, old(group), old(isSingleUse))
        && call.target > 0
        && title == "" && target == "" && !isSingleUse && error == old(error)
      ensures !(edit && userId.Some? && userId.value != "") && !AddAllowed(old(title), old(target), old(group)) ==>
        && call == NoCall && error == FillAllFields
        && title == old(title) && target == old(target) && isSingleUse == old(isSingleUse)
      ensures group == old(group) && groupVisible == old(groupVisible)
    {
      var targetNumber := JsText.ParseInt(target);
      if edit && userId.Some? && userId.value != "" {
        call := EditCall(title, JsText.ToNumber(target), group, isSingleUse);
      } else if JsText.Trim(title) != "" && targetNumber.Some? && targetNumber.value > 0 && JsText.Trim(group) != "" {
        call := AddCall(title, targetNumber.value, group, isSingleUse);
        title := "";
        target := "";
        isSingleUse := false;
      } else {
        call := NoCall;
        error := FillAllFields;
      }
    }

    /** `handleChange`: the "custom" option shows the new-group input with
        an empty group; any other option hides it and selects that group. */
    method HandleChange(value: string)
      modifies this
      ensures value == CustomOption ==> groupVisible && group == ""
      ensures value != CustomOption ==> !groupVisible && group == value
      ensures title == old(title) && target == old(target) && error == old(error)
      ensures isSingleUse == old(isSingleUse)
    {
      if value == CustomOption {
        groupVisible := true;
        group := "";
      } else {
        groupVisible := false;
        group := value;
      }
    }

    /** The effect on `edit`: entering edit mode prefills the form from the
        first daily challenge with the edited id (nothing happens when there
        is none); leaving it clears title, target and group and hides the
        group input, but keeps the single-use flag. */
    method OnEditToggle(edit: bool, dailyChallenges: seq<Challenge>, challengeId: string)
      modifies this
      ensures edit && FindById(dailyChallenges, challengeId).Some? ==>
        var c := FindById(dailyChallenges, challengeId).value;
        && title == c.title && target == JsText.IntToString(c.target)
        && group == c.group.GetOr("") && isSingleUse == c.isSingleUse.GetOr(false)
        && groupVisible == old(groupVisible)
      ensures edit && FindById(dailyChallenges, challengeId).None? ==>
        && title == old(title) && target == old(target) && group == old(group)
        && isSingleUse == old(isSingleUse) && groupVisible == old(groupVisible)
      ensures !edit ==>
        && title == "" && target == "" && group == "" && !groupVisible
        && isSingleUse == old(isSingleUse)
      ensures error == old(error)
    {
      if edit {
        var challengeToEdit := FindById(dailyChallenges, challengeId);
        if challengeToEdit.Some? {
          title := challengeToEdit.value.title;
          target := JsText.IntToString(challengeToEdit.value.target);
          group := challengeToEdit.value.group.GetOr("");
          isSingleUse := challengeToEdit.value.isSingleUse.GetOr(false);
        }
      } else {
        title := "";
        target := "";
        group := "";
        groupVisible := false;
      }
    }
  }

  /** Opening the editor on an existing challenge and saving it untouched
      hands back the challenge's own title, target and group. */
  method EditWithoutChanges(editor: ChallengeEditor, dailyChallenges: seq<Challenge>,
                            challengeId: string, userId: string)
    returns (call: ModalCall)
    requires userId != ""
    requires FindById(dailyChallenges, challengeId).Some?
    modifies editor
    ensures var c := FindById(dailyChallenges, challengeId).value;
      call == EditCall(c.title, Some(c.target), c.group.GetOr(""), c.isSingleUse.GetOr(false))
  {
    editor.OnEditToggle(true, dailyChallenges, challengeId);
    JsText.IntToStringNumber(FindById(dailyChallenges, challengeId).value.target);
    call := editor.HandleAdd(true, Some(userId));
  }

  /** After a successful add the title is empty, so submitting again at
      once adds nothing and shows the error. */
  method AddTwice(editor: ChallengeEditor) returns (first: ModalCall, second: ModalCall)
    requires AddAllowed(editor.title, editor.target, editor.group)
    modifies editor
    ensures first.AddCall? && second == NoCall && editor.error == FillAllFields
  {
    first := editor.HandleAdd(false, None);
    second := editor.HandleAdd(false, None);
  }
}
