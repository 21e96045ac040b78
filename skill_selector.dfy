/** The skill picker (client/components/ui/SkillSelector.tsx): a bounded, duplicate-free list
    of chosen skills, a text input, and the catalogue suggestions for that input. */
module SkillSelector {
  import opened Seqs
  import opened Text
  import opened Skills

  /** The `maxSkills` used when the caller gives none. */
  const DefaultMaxSkills: nat := 10

  /** `addSkill` on the list: the skill is appended when it is not chosen yet and there is
      room; otherwise the list is unchanged. */
  function AddSkill(selected: seq<string>, skill: string, maxSkills: nat): (r: seq<string>)
    ensures skill !in selected && |selected| < maxSkills ==> r == selected + [skill]
    ensures skill in selected || |selected| >= maxSkills ==> r == selected
  {
    if skill !in selected && |selected| < maxSkills then selected + [skill] else selected
  }

  /** `removeSkill` on the list: every occurrence of `skill` is dropped, the rest keep
      their order. */
  function RemoveSkill(selected: seq<string>, skill: string): (r: seq<string>)
    ensures skill !in r
    ensures forall x :: x in r <==> x in selected && x != skill
    ensures IsSubsequence(r, selected)
    ensures multiset(r) == multiset(selected)[skill := 0]
  {
    FilterMultiset((x: string) => x != skill, selected);
    Filter((x: string) => x != skill, selected)
  }

  /** The suggestion effect over a given catalogue: for a non-blank input, the search
      results that are not chosen yet; nothing for a blank input. */
  function Suggestions(catalogue: seq<string>, input: string, selected: seq<string>): (r: seq<string>)
    ensures IsBlank(input) ==> r == []
    ensures |r| <= SearchLimit
    ensures forall x :: x in r ==> x in SearchIn(catalogue, input) && x !in selected
    ensures IsSubsequence(r, SearchIn(catalogue, input))
    ensures !IsBlank(input) ==> forall x :: x in r <==> x in SearchIn(catalogue, input) && x !in selected
  {
    if IsBlank(input) then [] else Filter((x: string) => x !in selected, SearchIn(catalogue, input))
  }

  /** A selection the component keeps: no skill twice and at most `maxSkills` skills. */
  predicate WellFormed(selected: seq<string>, maxSkills: nat) {
    NoDup(selected) && |selected| <= maxSkills
  }

  lemma AddKeepsWellFormed(selected: seq<string>, skill: string, maxSkills: nat)
    requires WellFormed(selected, maxSkills)
    ensures WellFormed(AddSkill(selected, skill, maxSkills), maxSkills)
  {
    if skill !in selected && |selected| < maxSkills {
      var r := selected + [skill];
      forall i, j | 0 <= i < j < |r| ensures r[i] != r[j] {
        if j == |selected| {
          assert r[i] == selected[i];
        } else {
          assert r[i] == selected[i] && r[j] == selected[j];
        }
      }
    }
  }

  lemma RemoveKeepsWellFormed(selected: seq<string>, skill: string, maxSkills: nat)
    requires WellFormed(selected, maxSkills)
    ensures WellFormed(RemoveSkill(selected, skill), maxSkills)
  {
    FilterNoDup((x: string) => x != skill, selected);
  }

  /** Removing a skill that is not chosen changes nothing. */
  lemma RemoveAbsent(selected: seq<string>, skill: string)
    requires skill !in selected
    ensures RemoveSkill(selected, skill) == selected
  {
    FilterKeepsAll((x: string) => x != skill, selected);
  }

  /** In a duplicate-free list, removing the last skill (what Backspace on an empty input
      does) drops exactly the last element. */
  lemma RemoveLast(selected: seq<string>)
    requires NoDup(selected) && selected != []
    ensures RemoveSkill(selected, selected[|selected| - 1]) == selected[..|selected| - 1]
  {
    var last := selected[|selected| - 1];
    var front := selected[..|selected| - 1];
    var p := (x: string) => x != last;
    assert selected == front + [last];
    assert last !in front by {
      forall k | 0 <= k < |front| ensures front[k] != last {
        assert front[k] == selected[k];
      }
    }
    FilterSnoc(p, front, last);
    FilterKeepsAll(p, front);
  }

  /** The first suggestion is never chosen yet, so Enter adds it whenever there is room. */
  lemma EnterAddsFirstSuggestion(catalogue: seq<string>, input: string, selected: seq<string>, maxSkills: nat)
    requires Suggestions(catalogue, input, selected) != [] && |selected| < maxSkills
    ensures AddSkill(selected, Suggestions(catalogue, input, selected)[0], maxSkills) ==
            selected + [Suggestions(catalogue, input, selected)[0]]
  {
    assert Suggestions(catalogue, input, selected)[0] in Suggestions(catalogue, input, selected);
  }

  /** One change to the list made through the component. */
  datatype Edit = Add(skill: string) | Remove(skill: string)

  function ApplyEdit(selected: seq<string>, e: Edit, maxSkills: nat): seq<string> {
    match e
    case Add(s) => AddSkill(selected, s, maxSkills)
    case Remove(s) => RemoveSkill(selected, s)
  }

  function ApplyEdits(selected: seq<string>, edits: seq<Edit>, maxSkills: nat): seq<string>
    decreases |edits|
  {
    if edits == [] then selected else ApplyEdits(ApplyEdit(selected, edits[0], maxSkills), edits[1..], maxSkills)
  }

  /** A duplicate-free selection within the bound stays so under any sequence of additions
      and removals. */
  lemma {:induction false} EditsKeepWellFormed(selected: seq<string>, edits: seq<Edit>, maxSkills: nat)
    requires WellFormed(selected, maxSkills)
    ensures WellFormed(ApplyEdits(selected, edits, maxSkills), maxSkills)
    decreases |edits|
  {
    if edits != [] {
      match edits[0] {
        case Add(s) => AddKeepsWellFormed(selected, s, maxSkills);
        case Remove(s) => RemoveKeepsWellFormed(selected, s, maxSkills);
      }
      EditsKeepWellFormed(ApplyEdit(selected, edits[0], maxSkills), edits[1..], maxSkills);
    }
  }

  /** A key pressed in the input. */
  datatype Key = Enter | Backspace | OtherKey

  /** The component's state. `selected` stands for the `selectedSkills` property, which the
      parent replaces with every list passed to `onSkillsChange`. */
  class Selector {
    var selected: seq<string>
    var inputValue: string
    var suggestions: seq<string>
    var showSuggestions: bool
    const maxSkills: nat
    /** The list `searchSkills` searches. */
    const catalogue: seq<string>

    /** The suggestion effect has run since the last change of the input or the list. */
    predicate Valid()
      reads this
    {
      suggestions == Suggestions(catalogue, inputValue, selected)
    }

    /** The input is disabled once the list is full. */
    predicate InputEnabled()
      reads this
    {
      |selected| < maxSkills
    }

    constructor (initial: seq<string>, maxSkills: nat)
      ensures Valid()
      ensures selected == initial && inputValue == [] && !showSuggestions
      ensures this.maxSkills == maxSkills && catalogue == PredefinedSkills
    {
      selected := initial;
      inputValue := [];
      suggestions := [];
      showSuggestions := false;
      this.maxSkills := maxSkills;
      catalogue := PredefinedSkills;
    }

    /** The suggestion effect, run when the input or the list has changed. */
    method Refresh()
      modifies this
      ensures selected == old(selected) && inputValue == old(inputValue)
      ensures Valid()
      ensures showSuggestions == !IsBlank(inputValue)
    {
      suggestions := Suggestions(catalogue, inputValue, selected);
      showSuggestions := !IsBlank(inputValue);
    }

    /** `addSkill`: a successful addition also clears the input and closes the list. */
    method Add(skill: string)
      requires Valid()
      modifies this
      ensures Valid()
      ensures selected == AddSkill(old(selected), skill, maxSkills)
      ensures selected != old(selected) ==> inputValue == [] && !showSuggestions
      ensures selected == old(selected) ==>
                inputValue == old(inputValue) && showSuggestions == old(showSuggestions)
    {
      if skill !in selected && |selected| < maxSkills {
        selected := selected + [skill];
        inputValue := [];
        showSuggestions := false;
        Refresh();
      }
    }

    /** `removeSkill`: the parent receives a fresh list, so the suggestion effect runs. */
    method Remove(skill: string)
      requires Valid()
      modifies this
      ensures Valid()
      ensures selected == RemoveSkill(old(selected), skill)
      ensures inputValue == old(inputValue)
      ensures showSuggestions == !IsBlank(inputValue)
    {
      selected := RemoveSkill(selected, skill);
      Refresh();
    }

    /** The input's `onChange`, possible only while the input is enabled. */
    method Type(value: string)
      requires Valid()
      modifies this
      ensures Valid()
      ensures selected == old(selected)
      ensures old(InputEnabled()) ==> inputValue == value
      ensures old(InputEnabled()) && value != old(inputValue) ==> showSuggestions == !IsBlank(value)
      ensures !old(InputEnabled()) || value == old(inputValue) ==>
                inputValue == old(inputValue) && showSuggestions == old(showSuggestions)
    {
      if InputEnabled() && value != inputValue {
        inputValue := value;
        Refresh();
      }
    }

    /** `handleKeyDown`: Enter takes the first suggestion; Backspace on an empty input
        removes the last chosen skill. */
    method KeyDown(key: Key)
      requires Valid()
      modifies this
      ensures Valid()
      ensures old(InputEnabled()) && key == Enter && old(suggestions) != [] ==>
                selected == old(selected) + [old(suggestions)[0]] && inputValue == [] && !showSuggestions
      ensures old(InputEnabled()) && key == Backspace && old(inputValue) == [] && old(selected) != [] ==>
                selected == RemoveSkill(old(selected), old(selected)[|old(selected)| - 1]) &&
                inputValue == old(inputValue) && !showSuggestions
      ensures !old(InputEnabled()) || key == OtherKey ||
              (key == Enter && old(suggestions) == []) ||
              (key == Backspace && (old(inputValue) != [] || old(selected) == [])) ==>
                selected == old(selected) && inputValue == old(inputValue) &&
                showSuggestions == old(showSuggestions)
    {
      if InputEnabled() {
        if key == Enter && suggestions != [] {
          EnterAddsFirstSuggestion(catalogue, inputValue, selected, maxSkills);
          Add(suggestions[0]);
        } else if key == Backspace && inputValue == [] && selected != [] {
          Remove(selected[|selected| - 1]);
        }
      }
    }

    /** A mouse press outside both the input and the list closes the list. */
    method ClickOutside()
      modifies this
      ensures selected == old(selected) && inputValue == old(inputValue)
      ensures suggestions == old(suggestions) && !showSuggestions
    {
      showSuggestions := false;
    }

    /** Focusing the input reopens the list when the input is not empty. */
    method Focus()
      modifies this
      ensures selected == old(selected) && inputValue == old(inputValue)
      ensures suggestions == old(suggestions)
      ensures old(InputEnabled()) && inputValue != [] ==> showSuggestions
      ensures !old(InputEnabled()) || inputValue == [] ==> showSuggestions == old(showSuggestions)
    {
      if InputEnabled() && inputValue != [] {
        showSuggestions := true;
      }
    }
  }
}
