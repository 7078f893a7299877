/** The profile store: an ordered list of named profiles, at most one of them selected. */
module Profiles {
  import opened Wrappers

  /** A value of the `outputStyle` mapping: the source stores strings and one boolean. */
  datatype StyleValue = Str(s: string) | Bool(b: bool)

  /** One `outputStyle` entry, kept in the mapping's insertion order. */
  datatype StyleEntry = StyleEntry(key: string, value: StyleValue)

  /** A profile record; a record without a `selected` key reads as `selected == false`. */
  datatype Profile = Profile(
    name: string,
    description: string,
    constraints: seq<string>,
    outputStyle: seq<StyleEntry>,
    selected: bool)

  /** The two `ValueError`s the store raises. */
  datatype StoreError = DuplicateName(name: string) | NotFound(name: string)

  datatype Result<T> = Ok(value: T) | Err(error: StoreError)

  /** What a mutator reports: it returned normally, or it raised a `ValueError` whose text is `ErrorMessage(error)`. */
  datatype Outcome = Done | Failed(error: StoreError)

  /** What the settings file held when the store was loaded. */
  datatype SettingsFile =
    | Missing                                   // no file at the path
    | Corrupt                                   // the JSON does not parse
    | Parsed(profiles: Option<seq<Profile>>)    // parsed; `None` when "profiles" is missing, null or otherwise falsy

  /** The text of the `ValueError` raised for each error; it quotes the profile name. */
  function ErrorMessage(e: StoreError): (r: string)
    ensures |r| > 9 + |e.name| && r[..9] == "Profile '" && r[9..9 + |e.name|] == e.name
    ensures r[9 + |e.name|] == '\''
  {
    match e
    case DuplicateName(n) => "Profile '" + n + "' already exists"
    case NotFound(n) => "Profile '" + n + "' not found"
  }

  const DefaultProfile := Profile(
    "Default Profile",
    "A balanced profile suitable for general research paper analysis",
    [ "Maximum 500 words for summary",
      "Focus on key findings and methodology",
      "Include practical implications",
      "Highlight limitations and future work",
      "Use clear, accessible language" ],
    [ StyleEntry("language", Str("formal")),
      StyleEntry("technicalLevel", Str("intermediate")),
      StyleEntry("structurePreference", Str("paragraph")),
      StyleEntry("responseLanguage", Str("English")),
      StyleEntry("visualAids", Bool(true)) ],
    true)

  // ---------------------------------------------------------------------------
  // The selection invariant

  /** How many profiles carry `selected == true`. */
  function CountSelected(ps: seq<Profile>): nat
    decreases |ps|
  {
    if ps == [] then 0
    else (if ps[0].selected then 1 else 0) + CountSelected(ps[1..])
  }

  /** Exactly one profile is selected when there are any, none when the list is empty. */
  predicate OneSelected(ps: seq<Profile>) {
    CountSelected(ps) == if ps == [] then 0 else 1
  }

  predicate NamesUnique(ps: seq<Profile>) {
    forall i, j :: 0 <= i < j < |ps| ==> ps[i].name != ps[j].name
  }

  /** The settings `_create_default_settings` builds: the default profile alone, selected. */
  function DefaultSettings(): (r: seq<Profile>)
    ensures |r| == 1 && r[0].name == "Default Profile" && r[0].selected
    ensures OneSelected(r)
  {
    [DefaultProfile]
  }

  // ---------------------------------------------------------------------------
  // Lookups: first match in store order

  /** Index of the first profile named `name`. */
  function IndexOfName(ps: seq<Profile>, name: string): (r: Option<nat>)
    ensures r.Some? ==> r.value < |ps| && ps[r.value].name == name
    ensures r.Some? ==> forall j :: 0 <= j < r.value ==> ps[j].name != name
    ensures r.None? ==> forall j :: 0 <= j < |ps| ==> ps[j].name != name
    decreases |ps|
  {
    if ps == [] then None
    else if ps[0].name == name then Some(0)
    else match IndexOfName(ps[1..], name)
      case None => None
      case Some(k) => Some(k + 1)
  }

  /** Index of the first profile marked selected. */
  function IndexOfSelected(ps: seq<Profile>): (r: Option<nat>)
    ensures r.Some? ==> r.value < |ps| && ps[r.value].selected
    ensures r.Some? ==> forall j :: 0 <= j < r.value ==> !ps[j].selected
    ensures r.None? ==> forall j :: 0 <= j < |ps| ==> !ps[j].selected
    decreases |ps|
  {
    if ps == [] then None
    else if ps[0].selected then Some(0)
    else match IndexOfSelected(ps[1..])
      case None => None
      case Some(k) => Some(k + 1)
  }

  function ProfileByName(ps: seq<Profile>, name: string): Option<Profile> {
    match IndexOfName(ps, name)
    case None => None
    case Some(i) => Some(ps[i])
  }

  function ActiveOf(ps: seq<Profile>): Option<Profile> {
    match IndexOfSelected(ps)
    case None => None
    case Some(i) => Some(ps[i])
  }

  /** `get_profile_constraints`: by name when a non-empty name is given, else the active profile. */
  function ConstraintsFor(ps: seq<Profile>, name: Option<string>): seq<string> {
    var p := if Given(name) then ProfileByName(ps, name.value) else ActiveOf(ps);
    match p
    case None => []
    case Some(q) => q.constraints
  }

  // ---------------------------------------------------------------------------
  // What each operation does to the list

  /** The profile the load repair keeps selected: the first one marked, else index 0. */
  function KeepIndex(ps: seq<Profile>): nat {
    match IndexOfSelected(ps)
    case None => 0
    case Some(k) => k
  }

  function Repaired(ps: seq<Profile>): seq<Profile> {
    seq(|ps|, i requires 0 <= i < |ps| => ps[i].(selected := i == KeepIndex(ps)))
  }

  /** The list as read, before the repair; it is also what the settings file holds after loading,
      since the repair itself is not written back. */
  function Initial(file: SettingsFile): seq<Profile> {
    match file
    case Parsed(Some(ps)) => if ps == [] then DefaultSettings() else ps
    case _ => DefaultSettings()
  }

  function Loaded(file: SettingsFile): seq<Profile> {
    Repaired(Initial(file))
  }

  function Created(ps: seq<Profile>, p: Profile): Result<seq<Profile>> {
    if IndexOfName(ps, p.name).Some? then Err(DuplicateName(p.name))
    else Ok(ps + [p])
  }

  function Updated(ps: seq<Profile>, oldName: string, p: Profile): Result<seq<Profile>> {
    match IndexOfName(ps, oldName)
    case None => Err(NotFound(oldName))
    case Some(i) => Ok(ps[i := p.(selected := ps[i].selected)])
  }

  function Deleted(ps: seq<Profile>, name: string): Result<seq<Profile>> {
    match IndexOfName(ps, name)
    case None => Err(NotFound(name))
    case Some(i) =>
      var rest := ps[..i] + ps[i + 1..];
      if ps[i].selected && rest != [] then Ok(rest[0 := rest[0].(selected := true)])
      else Ok(rest)
  }

  /** The flags after `set_active_profile`'s loop, which runs whether or not the name exists. */
  function Activated(ps: seq<Profile>, name: string): seq<Profile> {
    seq(|ps|, i requires 0 <= i < |ps| => ps[i].(selected := ps[i].name == name))
  }

  // ---------------------------------------------------------------------------
  // The store

  class ProfileManager {
    var profiles: seq<Profile>
    /** The list the settings file holds: the one it was read from or the one last written to it. */
    ghost var saved: seq<Profile>

    /** `__init__` with `_load_profiles`. */
    constructor (file: SettingsFile)
      ensures profiles == Loaded(file)
      ensures saved == Initial(file)
    {
      var initial: seq<Profile>;
      match file {
        case Missing =>
          initial := DefaultSettings();
        case Corrupt =>
          initial := DefaultSettings();
        case Parsed(listed) =>
          if listed.None? || listed.value == [] {
            initial := DefaultSettings();
          } else {
            initial := listed.value;
          }
      }
      var repaired := RepairSelection(initial);
      profiles := repaired;
      saved := initial;
    }

    function GetAllProfiles(): (r: seq<Profile>)
      reads this
      ensures r == profiles
    {
      profiles
    }

    method GetProfileByName(name: string) returns (r: Option<Profile>)
      ensures r == ProfileByName(profiles, name)
    {
      var i := 0;
      while i < |profiles|
        invariant 0 <= i <= |profiles|
        invariant forall j :: 0 <= j < i ==> profiles[j].name != name
      {
        if profiles[i].name == name {
          return Some(profiles[i]);
        }
        i := i + 1;
      }
      return None;
    }

    method GetActiveProfile() returns (r: Option<Profile>)
      ensures r == ActiveOf(profiles)
    {
      var i := 0;
      while i < |profiles|
        invariant 0 <= i <= |profiles|
        invariant forall j :: 0 <= j < i ==> !profiles[j].selected
      {
        if profiles[i].selected {
          return Some(profiles[i]);
        }
        i := i + 1;
      }
      return None;
    }

    method CreateProfile(p: Profile) returns (outcome: Outcome)
      modifies this
      ensures Created(old(profiles), p).Ok? ==>
        outcome == Done && profiles == Created(old(profiles), p).value && saved == profiles
      ensures Created(old(profiles), p).Err? ==>
        outcome == Failed(Created(old(profiles), p).error) && profiles == old(profiles) && saved == old(saved)
    {
      var existing := GetProfileByName(p.name);
      if existing.Some? {
        return Failed(DuplicateName(p.name));
      }
      profiles := profiles + [p];
      saved := profiles;
      return Done;
    }

    method UpdateProfile(oldName: string, newProfile: Profile) returns (outcome: Outcome)
      modifies this
      ensures Updated(old(profiles), oldName, newProfile).Ok? ==>
        outcome == Done && profiles == Updated(old(profiles), oldName, newProfile).value && saved == profiles
      ensures Updated(old(profiles), oldName, newProfile).Err? ==>
        outcome == Failed(NotFound(oldName)) && profiles == old(profiles) && saved == old(saved)
    {
      var i := 0;
      while i < |profiles|
        invariant 0 <= i <= |profiles|
        invariant profiles == old(profiles) && saved == old(saved)
        invariant forall j :: 0 <= j < i ==> profiles[j].name != oldName
      {
        if profiles[i].name == oldName {
          var wasSelected := profiles[i].selected;
          profiles := profiles[i := newProfile];
          profiles := profiles[i := profiles[i].(selected := wasSelected)];
          saved := profiles;
          return Done;
        }
        i := i + 1;
      }
      return Failed(NotFound(oldName));
    }

    method DeleteProfile(name: string) returns (outcome: Outcome)
      modifies this
      ensures Deleted(old(profiles), name).Ok? ==>
        outcome == Done && profiles == Deleted(old(profiles), name).value && saved == profiles
      ensures Deleted(old(profiles), name).Err? ==>
        outcome == Failed(NotFound(name)) && profiles == old(profiles) && saved == old(saved)
    {
      var wasSelected := false;
      var found := false;
      var i := 0;
      while i < |profiles|
        invariant 0 <= i <= |profiles|
        invariant profiles == old(profiles)
        invariant forall j :: 0 <= j < i ==> profiles[j].name != name
      {
        if profiles[i].name == name {
          wasSelected := profiles[i].selected;
          profiles := profiles[..i] + profiles[i + 1..];
          found := true;
          break;
        }
        i := i + 1;
      }
      if !found {
        return Failed(NotFound(name));
      }
      assert IndexOfName(old(profiles), name) == Some(i);
      if wasSelected && profiles != [] {
        profiles := profiles[0 := profiles[0].(selected := true)];
      }
      saved := profiles;
      return Done;
    }

    method SetActiveProfile(name: string) returns (outcome: Outcome)
      modifies this
      ensures profiles == Activated(old(profiles), name)
      ensures IndexOfName(old(profiles), name).Some? ==> outcome == Done && saved == profiles
      ensures IndexOfName(old(profiles), name).None? ==> outcome == Failed(NotFound(name)) && saved == old(saved)
    {
      var found := false;
      var i := 0;
      while i < |profiles|
        invariant 0 <= i <= |profiles| == |old(profiles)|
        invariant saved == old(saved)
        invariant forall j :: 0 <= j < i ==>
          profiles[j] == old(profiles)[j].(selected := old(profiles)[j].name == name)
        invariant forall j :: i <= j < |profiles| ==> profiles[j] == old(profiles)[j]
        invariant found <==> exists j :: 0 <= j < i && old(profiles)[j].name == name
      {
        if profiles[i].name == name {
          profiles := profiles[i := profiles[i].(selected := true)];
          found := true;
        } else {
          profiles := profiles[i := profiles[i].(selected := false)];
        }
        i := i + 1;
      }
      if !found {
        return Failed(NotFound(name));
      }
      saved := profiles;
      return Done;
    }

    method GetProfileConstraints(name: Option<string>) returns (r: seq<string>)
      ensures r == ConstraintsFor(profiles, name)
    {
      var profile: Option<Profile>;
      if Given(name) {
        profile := GetProfileByName(name.value);
      } else {
        profile := GetActiveProfile();
      }
      if profile.Some? {
        return profile.value.constraints;
      }
      return [];
    }
  }

  /** The repair loop of `_load_profiles`: later marked profiles are cleared, index 0 is marked if none was. */
  method RepairSelection(ps: seq<Profile>) returns (r: seq<Profile>)
    ensures r == Repaired(ps)
  {
    r := ps;
    var selectedFound := false;
    var i := 0;
    while i < |r|
      invariant 0 <= i <= |r| == |ps|
      invariant forall j :: i <= j < |r| ==> r[j] == ps[j]
      invariant forall j :: 0 <= j < i ==> r[j] == ps[j].(selected := IndexOfSelected(ps) == Some(j))
      invariant selectedFound <==> IndexOfSelected(ps).Some? && IndexOfSelected(ps).value < i
    {
      if r[i].selected {
        if selectedFound {
          r := r[i := r[i].(selected := false)];
        } else {
          selectedFound := true;
        }
      }
      i := i + 1;
    }
    if !selectedFound && r != [] {
      r := r[0 := r[0].(selected := true)];
    }
  }
}
