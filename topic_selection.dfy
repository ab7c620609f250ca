/**
 * The interest picker: an ordered list of topic ids used as a set, toggled
 * one id at a time, cleared in one go and saved after a simulated delay.
 */
module TopicSelection {

  /** The ids of the twenty topics the page offers, 1 to 20 in display order. */
  const TopicIds: seq<int> := [1, 2, 3, 4, 5, 6, 7, 8, 9, 10, 11, 12, 13, 14, 15, 16, 17, 18, 19, 20]

  predicate NoDuplicates(s: seq<int>) {
    forall i, j :: 0 <= i < j < |s| ==> s[i] != s[j]
  }

  /** `s.filter(id => id !== t)`: every occurrence of `t` is dropped, the rest keep their order. */
  function Without(s: seq<int>, t: int): (r: seq<int>)
    ensures forall x :: x in r <==> x in s && x != t
    ensures |r| <= |s|
    ensures NoDuplicates(s) ==> NoDuplicates(r)
  {
    if s == [] then []
    else
      var rest := Without(s[1..], t);
      if s[0] == t then rest
      else
        assert NoDuplicates(s) ==> s[0] !in s[1..];
        [s[0]] + rest
  }

  /** Filtering distributes over concatenation, so the surviving ids keep their relative order. */
  lemma {:induction false} WithoutConcat(a: seq<int>, b: seq<int>, t: int)
    ensures Without(a + b, t) == Without(a, t) + Without(b, t)
  {
    if a == [] {
      assert a + b == b;
    } else {
      assert (a + b)[1..] == a[1..] + b;
      WithoutConcat(a[1..], b, t);
    }
  }

  /** Filtering out an id that is not there gives back the list itself. */
  lemma {:induction false} WithoutAbsent(s: seq<int>, t: int)
    requires t !in s
    ensures Without(s, t) == s
  {
    if s != [] {
      WithoutAbsent(s[1..], t);
    }
  }

  /** In a duplicate-free list, filtering out the id at position `i` deletes exactly that position. */
  lemma {:induction false} WithoutAt(s: seq<int>, i: nat)
    requires NoDuplicates(s) && i < |s|
    ensures Without(s, s[i]) == s[..i] + s[i + 1..]
  {
    var t, p, q := s[i], s[..i], s[i + 1..];
    assert s == p + ([t] + q);
    assert t !in p by {
      forall j | 0 <= j < |p| ensures p[j] != t { assert p[j] == s[j]; }
    }
    assert t !in q by {
      forall j | 0 <= j < |q| ensures q[j] != t { assert q[j] == s[i + 1 + j]; }
    }
    assert Without([t], t) == [] by { assert [t][1..] == []; }
    WithoutConcat(p, [t] + q, t);
    WithoutConcat([t], q, t);
    WithoutAbsent(p, t);
    WithoutAbsent(q, t);
  }

  /** The update `toggleTopic` hands to `setSelectedTopics`. */
  function Toggle(s: seq<int>, t: int): (r: seq<int>)
    ensures t in r <==> t !in s
    ensures forall x :: x != t ==> (x in r <==> x in s)
    ensures t !in s ==> |r| == |s| + 1 && r[..|s|] == s && r[|s|] == t
    ensures NoDuplicates(s) ==> NoDuplicates(r)
  {
    if t in s then Without(s, t) else s + [t]
  }

  /** Toggling a present id in a duplicate-free list removes it and keeps every other id in place. */
  lemma TogglePresent(s: seq<int>, i: nat)
    requires NoDuplicates(s) && i < |s|
    ensures Toggle(s, s[i]) == s[..i] + s[i + 1..]
  {
    WithoutAt(s, i);
  }

  /** Toggling an absent id twice gives back exactly the original list. */
  lemma ToggleTwiceAbsent(s: seq<int>, t: int)
    requires t !in s
    ensures Toggle(Toggle(s, t), t) == s
  {
    WithoutConcat(s, [t], t);
    WithoutAbsent(s, t);
  }

  /** Toggling a present id twice moves it to the end and keeps the others in place. */
  lemma ToggleTwicePresent(s: seq<int>, i: nat)
    requires NoDuplicates(s) && i < |s|
    ensures Toggle(Toggle(s, s[i]), s[i]) == s[..i] + s[i + 1..] + [s[i]]
  {
    TogglePresent(s, i);
  }

  /** Every id of the list comes from the page's catalogue. */
  predicate WithinCatalogue(s: seq<int>) {
    forall x :: x in s ==> x in TopicIds
  }

  /** A duplicate-free list has as many distinct elements as it has positions. */
  lemma {:induction false} DistinctCount(s: seq<int>)
    requires NoDuplicates(s)
    ensures |set x | x in s| == |s|
  {
    if s != [] {
      assert NoDuplicates(s[1..]);
      DistinctCount(s[1..]);
      assert (set x | x in s) == {s[0]} + (set x | x in s[1..]);
      assert s[0] !in s[1..];
    }
  }

  /** The "Selected: n / 20" counter can never exceed the size of the catalogue. */
  lemma SelectionFitsCatalogue(s: seq<int>)
    requires NoDuplicates(s) && WithinCatalogue(s)
    ensures |s| <= |TopicIds|
  {
    DistinctCount(s);
    DistinctCount(TopicIds);
    var chosen, offered := set x | x in s, set x | x in TopicIds;
    assert chosen <= offered;
    assert offered == chosen + (offered - chosen);
    assert |offered| == |chosen| + |offered - chosen|;
  }

  class TopicPicker {
    var selectedTopics: seq<int>
    var isLoading: bool
    /** How many delayed save completions were scheduled and have not fired yet. */
    var pendingSaves: nat

    ghost predicate Valid()
      reads this
    {
      NoDuplicates(selectedTopics)
    }

    /** The page opens with nothing selected and nothing saving. */
    constructor ()
      ensures Valid()
      ensures selectedTopics == [] && !isLoading && pendingSaves == 0
    {
      selectedTopics := [];
      isLoading := false;
      pendingSaves := 0;
    }

    /** Whether a topic button is drawn highlighted with a check mark. */
    function IsSelected(topicId: int): bool
      reads this
    {
      topicId in selectedTopics
    }

    /** Clicking a topic button. */
    method ToggleTopic(topicId: int)
      requires Valid()
      modifies this`selectedTopics
      ensures Valid()
      ensures selectedTopics == Toggle(old(selectedTopics), topicId)
      ensures IsSelected(topicId) == !old(IsSelected(topicId))
      ensures forall x :: x != topicId ==> IsSelected(x) == old(IsSelected(x))
      ensures IsSelected(topicId) ==> CanClearAll()
      ensures WithinCatalogue(old(selectedTopics)) && topicId in TopicIds ==> WithinCatalogue(selectedTopics)
    {
      selectedTopics := Toggle(selectedTopics, topicId);
    }

    /** The Clear All button. */
    method ClearAll()
      modifies this`selectedTopics
      ensures Valid()
      ensures selectedTopics == []
      ensures !CanClearAll() && !CanSave()
      ensures forall x :: !IsSelected(x)
    {
      selectedTopics := [];
    }

    /**
     * Save Preferences: an empty selection is turned away with nothing changed;
     * otherwise saving starts and its completion is scheduled.
     */
    method HandleSave() returns (accepted: bool)
      modifies this`isLoading, this`pendingSaves
      ensures accepted <==> old(selectedTopics) != []
      ensures !accepted ==> isLoading == old(isLoading) && pendingSaves == old(pendingSaves)
      ensures accepted ==> isLoading && pendingSaves == old(pendingSaves) + 1
      ensures accepted ==> !CanSave()
    {
      if |selectedTopics| == 0 {
        return false;
      }
      isLoading := true;
      pendingSaves := pendingSaves + 1;
      accepted := true;
    }

    /** The delayed completion of a save: loading ends (and the page navigates home). */
    method CompleteSave()
      requires pendingSaves > 0
      modifies this`isLoading, this`pendingSaves
      ensures !isLoading && pendingSaves == old(pendingSaves) - 1
    {
      isLoading := false;
      pendingSaves := pendingSaves - 1;
    }

    /** Whether Save Preferences is enabled. */
    function CanSave(): bool
      reads this
    {
      !(isLoading || |selectedTopics| == 0)
    }

    /** Whether Clear All is enabled. */
    function CanClearAll(): bool
      reads this
    {
      !(|selectedTopics| == 0)
    }
  }

  /**
   * Pressing Save Preferences while it is enabled: the save is always
   * accepted, and the button disables itself until the completion fires.
   */
  method PressSave(p: TopicPicker) returns (accepted: bool)
    requires p.CanSave()
    modifies p
    ensures accepted && p.isLoading && !p.CanSave()
    ensures p.selectedTopics == old(p.selectedTopics)
    ensures p.pendingSaves == old(p.pendingSaves) + 1
  {
    accepted := p.HandleSave();
  }

  /**
   * Pressing Clear All while it is enabled: something was selected, nothing
   * is afterwards, and both Clear All and Save Preferences are disabled.
   */
  method PressClearAll(p: TopicPicker)
    requires p.CanClearAll()
    modifies p
    ensures old(p.selectedTopics) != [] && p.selectedTopics == []
    ensures !p.CanClearAll() && !p.CanSave()
    ensures p.isLoading == old(p.isLoading) && p.pendingSaves == old(p.pendingSaves)
  {
    p.ClearAll();
  }
}
