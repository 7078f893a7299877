/** What the profile store's operations do to the selection flags, the order and the names. */
module ProfileProperties {
  import opened Wrappers
  import opened Profiles

  // ---------------------------------------------------------------------------
  // Counting selected profiles

  lemma {:induction false} CountConcat(a: seq<Profile>, b: seq<Profile>)
    ensures CountSelected(a + b) == CountSelected(a) + CountSelected(b)
    decreases |a|
  {
    if a == [] {
      assert a + b == b;
    } else {
      assert (a + b)[1..] == a[1..] + b;
      CountConcat(a[1..], b);
    }
  }

  /** No profile marked: the count is zero, and only then. */
  lemma {:induction false} CountZero(ps: seq<Profile>)
    ensures CountSelected(ps) == 0 <==> forall i :: 0 <= i < |ps| ==> !ps[i].selected
    decreases |ps|
  {
    if ps != [] {
      CountZero(ps[1..]);
      assert forall i :: 1 <= i < |ps| ==> ps[i] == ps[1..][i - 1];
    }
  }

  /** Exactly the profile at `k` is marked: the count is one. */
  lemma {:induction false} CountOnly(ps: seq<Profile>, k: nat)
    requires k < |ps|
    requires forall i :: 0 <= i < |ps| ==> (ps[i].selected <==> i == k)
    ensures CountSelected(ps) == 1
  {
    var a, c := ps[..k], ps[k + 1..];
    assert ps == a + ([ps[k]] + c);
    CountConcat(a, [ps[k]] + c);
    CountConcat([ps[k]], c);
    assert CountSelected([ps[k]]) == 1 by { assert [ps[k]][1..] == []; }
    CountZero(a);
    CountZero(c);
  }

  /** Two lists with the same flags, position by position, count the same. */
  lemma {:induction false} CountSameFlags(a: seq<Profile>, b: seq<Profile>)
    requires |a| == |b|
    requires forall i :: 0 <= i < |a| ==> a[i].selected == b[i].selected
    ensures CountSelected(a) == CountSelected(b)
    decreases |a|
  {
    if a != [] {
      CountSameFlags(a[1..], b[1..]);
    }
  }

  lemma CountRemove(ps: seq<Profile>, i: nat)
    requires i < |ps|
    ensures CountSelected(ps[..i] + ps[i + 1..]) + (if ps[i].selected then 1 else 0) == CountSelected(ps)
  {
    var a, c := ps[..i], ps[i + 1..];
    assert ps == a + ([ps[i]] + c);
    CountConcat(a, [ps[i]] + c);
    CountConcat([ps[i]], c);
    assert CountSelected([ps[i]]) == (if ps[i].selected then 1 else 0) by { assert [ps[i]][1..] == []; }
    CountConcat(a, c);
  }

  /** In a list where exactly one profile is selected, that profile is the active one. */
  lemma OnlySelectedIsActive(ps: seq<Profile>, k: nat)
    requires k < |ps|
    requires forall i :: 0 <= i < |ps| ==> (ps[i].selected <==> i == k)
    ensures ActiveOf(ps) == Some(ps[k])
  {
  }

  // ---------------------------------------------------------------------------
  // Loading

  /** The repair keeps the first marked profile (index 0 when none is marked), clears every
      other flag and touches nothing else; a non-empty list ends with exactly one selected. */
  lemma RepairKeepsFirstSelected(ps: seq<Profile>)
    ensures |Repaired(ps)| == |ps|
    ensures forall i :: 0 <= i < |ps| ==> Repaired(ps)[i].(selected := ps[i].selected) == ps[i]
    ensures forall i :: 0 <= i < |ps| ==> (Repaired(ps)[i].selected <==> i == KeepIndex(ps))
    ensures IndexOfSelected(ps).Some? ==> KeepIndex(ps) == IndexOfSelected(ps).value
    ensures IndexOfSelected(ps).None? ==> KeepIndex(ps) == 0
    ensures ps != [] ==> CountSelected(Repaired(ps)) == 1
  {
    if ps != [] {
      CountOnly(Repaired(ps), KeepIndex(ps));
    }
  }

  /** A list in which exactly one profile is already selected comes through the repair unchanged. */
  lemma RepairIdentityOnValid(ps: seq<Profile>)
    requires ps != [] && OneSelected(ps)
    ensures Repaired(ps) == ps
  {
    CountZero(ps);
    var k := IndexOfSelected(ps).value;
    forall i | 0 <= i < |ps| ensures ps[i].selected <==> i == k {
      if i != k && ps[i].selected {
        var lo, hi := if i < k then i else k, if i < k then k else i;
        var trio := ps[..lo] + [ps[lo]] + ps[lo + 1..hi] + [ps[hi]] + ps[hi + 1..];
        assert ps == trio;
        CountConcat(ps[..lo] + [ps[lo]] + ps[lo + 1..hi] + [ps[hi]], ps[hi + 1..]);
        CountConcat(ps[..lo] + [ps[lo]] + ps[lo + 1..hi], [ps[hi]]);
        CountConcat(ps[..lo] + [ps[lo]], ps[lo + 1..hi]);
        CountConcat(ps[..lo], [ps[lo]]);
        assert false;
      }
    }
    assert Repaired(ps) == ps;
  }

  /** After loading, whatever the file held, the list is non-empty and exactly one profile is selected. */
  lemma LoadedExactlyOne(file: SettingsFile)
    ensures |Loaded(file)| >= 1
    ensures CountSelected(Loaded(file)) == 1
  {
    RepairKeepsFirstSelected(Initial(file));
  }

  /** A missing file, a corrupt file, or a file without profiles loads as the default settings. */
  lemma LoadFallsBackToDefault(file: SettingsFile)
    requires file.Missing? || file.Corrupt? || file.profiles.None? || file.profiles.value == []
    ensures Loaded(file) == DefaultSettings()
    ensures Loaded(file)[0].selected
  {
    assert Initial(file) == [DefaultProfile];
    assert KeepIndex([DefaultProfile]) == 0;
    assert Repaired([DefaultProfile]) == [DefaultProfile];
  }

  // ---------------------------------------------------------------------------
  // Create

  /** Create fails exactly when the name is taken; otherwise it appends and leaves earlier entries alone. */
  lemma CreateAppendsUnlessTaken(ps: seq<Profile>, p: Profile)
    ensures Created(ps, p).Err? <==> exists j :: 0 <= j < |ps| && ps[j].name == p.name
    ensures Created(ps, p).Err? ==> Created(ps, p).error == DuplicateName(p.name)
    ensures Created(ps, p).Ok? ==>
      var r := Created(ps, p).value;
      |r| == |ps| + 1 && r[|ps|] == p && r[..|ps|] == ps
  {
    if Created(ps, p).Ok? {
      assert (ps + [p])[..|ps|] == ps;
    }
  }

  /** Create keeps the names unique. */
  lemma CreateKeepsNamesUnique(ps: seq<Profile>, p: Profile)
    requires NamesUnique(ps) && Created(ps, p).Ok?
    ensures NamesUnique(Created(ps, p).value)
  {
  }

  /** The profile is appended as given, so the count grows by its flag whatever the store held;
      from a store with exactly one selected, the invariant survives exactly when the new profile
      is selected if and only if the store was empty. */
  lemma CreateSelectionIff(ps: seq<Profile>, p: Profile)
    requires Created(ps, p).Ok?
    ensures CountSelected(Created(ps, p).value) == CountSelected(ps) + (if p.selected then 1 else 0)
    ensures OneSelected(ps) ==> (OneSelected(Created(ps, p).value) <==> (p.selected <==> ps == []))
  {
    CountConcat(ps, [p]);
  }

  // ---------------------------------------------------------------------------
  // Update

  /** Update fails exactly when the name is absent; otherwise it replaces the first entry with that
      name, in place, carrying its flag over, and every flag (hence the invariant) survives. */
  lemma UpdateReplacesInPlace(ps: seq<Profile>, oldName: string, p: Profile)
    ensures Updated(ps, oldName, p).Err? <==> IndexOfName(ps, oldName).None?
    ensures Updated(ps, oldName, p).Ok? ==>
      var r, i := Updated(ps, oldName, p).value, IndexOfName(ps, oldName).value;
      && |r| == |ps|
      && r[i] == p.(selected := ps[i].selected)
      && (forall j :: 0 <= j < |ps| && j != i ==> r[j] == ps[j])
      && CountSelected(r) == CountSelected(ps)
      && (OneSelected(ps) ==> OneSelected(r))
  {
    if Updated(ps, oldName, p).Ok? {
      CountSameFlags(Updated(ps, oldName, p).value, ps);
    }
  }

  // ---------------------------------------------------------------------------
  // Delete

  /** Delete fails exactly when the name is absent; otherwise it removes the first entry with that
      name and keeps the rest in order, only possibly raising the flag of the new first entry. */
  lemma DeleteRemovesFirstMatch(ps: seq<Profile>, name: string)
    ensures Deleted(ps, name).Err? <==> IndexOfName(ps, name).None?
    ensures Deleted(ps, name).Ok? ==>
      var r, i := Deleted(ps, name).value, IndexOfName(ps, name).value;
      && |r| == |ps| - 1
      && (forall j :: 0 <= j < i ==> r[j].(selected := ps[j].selected) == ps[j])
      && (forall j :: i <= j < |r| ==> r[j].(selected := ps[j + 1].selected) == ps[j + 1])
      && (forall j :: 1 <= j < |r| ==> r[j] == (if j < i then ps[j] else ps[j + 1]))
  {
    if IndexOfName(ps, name).Some? {
      var i := IndexOfName(ps, name).value;
      RemoveAt(ps, i, ps[..i] + ps[i + 1..]);
    }
  }

  /** Removing index `i` keeps the entries before it and shifts the ones after it down by one. */
  lemma RemoveAt(ps: seq<Profile>, i: nat, rest: seq<Profile>)
    requires i < |ps| && rest == ps[..i] + ps[i + 1..]
    ensures |rest| == |ps| - 1
    ensures forall j :: 0 <= j < i ==> rest[j] == ps[j]
    ensures forall j :: i <= j < |rest| ==> rest[j] == ps[j + 1]
  {
  }

  /** Deleting an unselected profile changes no flag: the result is the list without that entry. */
  lemma DeleteUnselectedKeepsFlags(ps: seq<Profile>, name: string)
    ensures IndexOfName(ps, name).Some? && !ps[IndexOfName(ps, name).value].selected ==>
      var i := IndexOfName(ps, name).value;
      Deleted(ps, name) == Ok(ps[..i] + ps[i + 1..])
  {
  }

  /** Delete keeps exactly one profile selected when profiles remain. */
  lemma DeletePreservesOneSelected(ps: seq<Profile>, name: string)
    requires OneSelected(ps) && Deleted(ps, name).Ok?
    ensures OneSelected(Deleted(ps, name).value)
  {
    var i := IndexOfName(ps, name).value;
    var rest := ps[..i] + ps[i + 1..];
    CountRemove(ps, i);
    if ps[i].selected && rest != [] {
      var r := rest[0 := rest[0].(selected := true)];
      CountZero(rest);
      CountOnly(r, 0);
    }
  }

  /** Deleting the active profile while others remain makes the first remaining one active. */
  lemma DeleteActiveSelectsFirstRemaining(ps: seq<Profile>, name: string)
    requires |ps| > 1
    requires IndexOfName(ps, name).Some? && ps[IndexOfName(ps, name).value].selected
    ensures Deleted(ps, name).Ok?
    ensures var r := Deleted(ps, name).value;
      var first := if IndexOfName(ps, name).value == 0 then ps[1] else ps[0];
      && r[0] == first.(selected := true)
      && ActiveOf(r) == Some(r[0])
  {
    var i := IndexOfName(ps, name).value;
    var rest := ps[..i] + ps[i + 1..];
    var r := rest[0 := rest[0].(selected := true)];
    assert Deleted(ps, name) == Ok(r);
  }

  // ---------------------------------------------------------------------------
  // Set active

  /** Every entry with the name is marked and every other entry cleared; nothing else changes. */
  lemma ActivatedFlags(ps: seq<Profile>, name: string)
    ensures |Activated(ps, name)| == |ps|
    ensures forall i :: 0 <= i < |ps| ==>
      Activated(ps, name)[i].(selected := ps[i].selected) == ps[i]
      && (Activated(ps, name)[i].selected <==> ps[i].name == name)
  {
  }

  /** With unique names, activating an existing name leaves exactly that profile selected and active. */
  lemma ActivateExistingSelectsOne(ps: seq<Profile>, name: string)
    requires NamesUnique(ps) && IndexOfName(ps, name).Some?
    ensures OneSelected(Activated(ps, name))
    ensures ActiveOf(Activated(ps, name)) == Some(ps[IndexOfName(ps, name).value].(selected := true))
  {
    var k := IndexOfName(ps, name).value;
    var r := Activated(ps, name);
    assert forall i :: 0 <= i < |r| ==> (r[i].selected <==> i == k);
    CountOnly(r, k);
    OnlySelectedIsActive(r, k);
  }

  /** Activating a missing name clears every flag before the error is raised: no profile is
      active afterwards, so a non-empty store no longer has exactly one selected. */
  lemma ActivateMissingClearsAll(ps: seq<Profile>, name: string)
    requires IndexOfName(ps, name).None?
    ensures CountSelected(Activated(ps, name)) == 0
    ensures ActiveOf(Activated(ps, name)) == None
    ensures ps != [] ==> !OneSelected(Activated(ps, name))
  {
    CountZero(Activated(ps, name));
  }

  /** Creating a profile and then activating it makes it the active profile. */
  lemma CreateThenActivate(ps: seq<Profile>, p: Profile)
    requires Created(ps, p).Ok?
    ensures ActiveOf(Activated(Created(ps, p).value, p.name)) == Some(p.(selected := true))
  {
    var r := Created(ps, p).value;
    var a := Activated(r, p.name);
    assert forall j :: 0 <= j < |ps| ==> r[j] == ps[j];
    assert forall j :: 0 <= j < |a| ==> (a[j].selected <==> j == |ps|);
    OnlySelectedIsActive(a, |ps|);
  }

  // ---------------------------------------------------------------------------
  // Lookups

  /** The constraint lookup: a non-empty name selects by name, otherwise the active profile;
      nothing found gives the empty list. */
  lemma ConstraintsLookup(ps: seq<Profile>, name: Option<string>)
    ensures Given(name) && IndexOfName(ps, name.value).Some? ==>
      ConstraintsFor(ps, name) == ps[IndexOfName(ps, name.value).value].constraints
    ensures !Given(name) && IndexOfSelected(ps).Some? ==>
      ConstraintsFor(ps, name) == ps[IndexOfSelected(ps).value].constraints
    ensures (Given(name) && (forall j :: 0 <= j < |ps| ==> ps[j].name != name.value)) ==> ConstraintsFor(ps, name) == []
    ensures (!Given(name) && (forall j :: 0 <= j < |ps| ==> !ps[j].selected)) ==> ConstraintsFor(ps, name) == []
  {
  }
}
