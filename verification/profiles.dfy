/**
  Profiles: the record a profile stores (hellmacro.py:907-917), how loading reads it with
  defaults for missing keys (hellmacro.py:965-1002), and the create, save, rename and delete
  operations on the profile map (hellmacro.py:895-1059). File writes are left out.
*/
module Profiles {
  import opened Base
  import Catalog
  import Tunables

  /** The persisted part of the application's state. */
  datatype Settings = Settings(
    keybinds: seq<string>,
    stratagems: seq<string>,
    supportKeybinds: seq<string>,
    railgunTimeout: real,
    arcThrowerDelay: real,
    railgunKeybind: string,
    arcThrowerKeybind: string,
    railgunUseKeyboardFallback: bool,
    macroDelay: real)

  /** A profile as stored: a JSON object in which any key may be missing. */
  datatype Profile = Profile(
    keybinds: Option<seq<string>>,
    stratagems: Option<seq<string>>,
    supportKeybinds: Option<seq<string>>,
    railgunTimeout: Option<real>,
    arcThrowerDelay: Option<real>,
    railgunKeybind: Option<string>,
    arcThrowerKeybind: Option<string>,
    railgunUseKeyboardFallback: Option<bool>,
    macroDelay: Option<real>)

  const NoKeys: Profile := Profile(None, None, None, None, None, None, None, None, None)

  const DefaultSettings: Settings := Settings(
    ["", "", "", "", ""],
    [Catalog.Placeholder, Catalog.Placeholder, Catalog.Placeholder, Catalog.Placeholder, Catalog.Placeholder],
    ["", "", "", "", ""],
    Tunables.DefaultRailgunTimeout, Tunables.DefaultArcThrowerDelay, "", "", false, Tunables.DefaultMacroDelay)

  const DefaultName: string := "Default"

  function GetOr<T>(o: Option<T>, default: T): T {
    match o
    case Some(v) => v
    case None => default
  }

  /** The record `create_new_profile` and `save_profile` build: every key present. */
  function Export(s: Settings): (p: Profile)
    ensures p.keybinds.Some? && p.stratagems.Some? && p.supportKeybinds.Some? && p.railgunTimeout.Some?
    ensures p.arcThrowerDelay.Some? && p.railgunKeybind.Some? && p.arcThrowerKeybind.Some?
    ensures p.railgunUseKeyboardFallback.Some? && p.macroDelay.Some?
  {
    Profile(Some(s.keybinds), Some(s.stratagems), Some(s.supportKeybinds), Some(s.railgunTimeout),
            Some(s.arcThrowerDelay), Some(s.railgunKeybind), Some(s.arcThrowerKeybind),
            Some(s.railgunUseKeyboardFallback), Some(s.macroDelay))
  }

  /**
    The values `load_profile` reads: each key is read on its own, as stored when present and
    as the `__init__` default when missing, so a partly filled profile keeps what it has.
  */
  function Resolve(p: Profile): (s: Settings)
    ensures p == NoKeys ==> s == DefaultSettings
    ensures p.keybinds.Some? ==> s.keybinds == p.keybinds.value
    ensures p.keybinds.None? ==> s.keybinds == DefaultSettings.keybinds
    ensures p.stratagems.Some? ==> s.stratagems == p.stratagems.value
    ensures p.stratagems.None? ==> s.stratagems == DefaultSettings.stratagems
    ensures p.supportKeybinds.Some? ==> s.supportKeybinds == p.supportKeybinds.value
    ensures p.supportKeybinds.None? ==> s.supportKeybinds == DefaultSettings.supportKeybinds
    ensures p.railgunTimeout.Some? ==> s.railgunTimeout == p.railgunTimeout.value
    ensures p.railgunTimeout.None? ==> s.railgunTimeout == DefaultSettings.railgunTimeout
    ensures p.arcThrowerDelay.Some? ==> s.arcThrowerDelay == p.arcThrowerDelay.value
    ensures p.arcThrowerDelay.None? ==> s.arcThrowerDelay == DefaultSettings.arcThrowerDelay
    ensures p.railgunKeybind.Some? ==> s.railgunKeybind == p.railgunKeybind.value
    ensures p.railgunKeybind.None? ==> s.railgunKeybind == DefaultSettings.railgunKeybind
    ensures p.arcThrowerKeybind.Some? ==> s.arcThrowerKeybind == p.arcThrowerKeybind.value
    ensures p.arcThrowerKeybind.None? ==> s.arcThrowerKeybind == DefaultSettings.arcThrowerKeybind
    ensures p.railgunUseKeyboardFallback.Some? ==> s.railgunUseKeyboardFallback == p.railgunUseKeyboardFallback.value
    ensures p.railgunUseKeyboardFallback.None? ==> s.railgunUseKeyboardFallback == DefaultSettings.railgunUseKeyboardFallback
    ensures p.macroDelay.Some? ==> s.macroDelay == p.macroDelay.value
    ensures p.macroDelay.None? ==> s.macroDelay == DefaultSettings.macroDelay
  {
    Settings(
      GetOr(p.keybinds, DefaultSettings.keybinds),
      GetOr(p.stratagems, DefaultSettings.stratagems),
      GetOr(p.supportKeybinds, DefaultSettings.supportKeybinds),
      GetOr(p.railgunTimeout, DefaultSettings.railgunTimeout),
      GetOr(p.arcThrowerDelay, DefaultSettings.arcThrowerDelay),
      GetOr(p.railgunKeybind, DefaultSettings.railgunKeybind),
      GetOr(p.arcThrowerKeybind, DefaultSettings.arcThrowerKeybind),
      GetOr(p.railgunUseKeyboardFallback, DefaultSettings.railgunUseKeyboardFallback),
      GetOr(p.macroDelay, DefaultSettings.macroDelay))
  }

  /** Reading back an exported record gives the settings it was made from. */
  lemma ResolveExport(s: Settings)
    ensures Resolve(Export(s)) == s
  {
  }

  /** The three per-slot lists have the length the five-slot table needs. */
  predicate Loadable(s: Settings) {
    |s.keybinds| == 5 && |s.stratagems| == 5 && |s.supportKeybinds| == 5
  }

  /** A combo box only moves to a name it lists (`setCurrentText` on a non-editable combo). */
  function SelectIfListed(catalog: map<string, Catalog.CatalogEntry>, current: string, name: string): (r: string)
    ensures Catalog.Listed(catalog, current) ==> Catalog.Listed(catalog, r)
    ensures Catalog.Listed(catalog, name) ==> r == name
    ensures !Catalog.Listed(catalog, name) ==> r == current
  {
    if Catalog.Listed(catalog, name) then name else current
  }

  /** The settings after loading `loaded` over `current`. */
  function ApplyLoad(catalog: map<string, Catalog.CatalogEntry>, current: Settings, loaded: Settings): (r: Settings)
    requires |current.stratagems| == 5 && Loadable(loaded)
    ensures Loadable(r)
    ensures (forall i :: 0 <= i < 5 ==> Catalog.Listed(catalog, current.stratagems[i])) ==>
              forall i :: 0 <= i < 5 ==> Catalog.Listed(catalog, r.stratagems[i])
    ensures r.(stratagems := loaded.stratagems) == loaded
    ensures forall i :: 0 <= i < 5 ==> r.stratagems[i] == SelectIfListed(catalog, current.stratagems[i], loaded.stratagems[i])
  {
    var selected := seq(5, i requires 0 <= i < 5 => SelectIfListed(catalog, current.stratagems[i], loaded.stratagems[i]));
    loaded.(stratagems := selected)
  }

  /** Saving the current settings into a profile and loading it back restores them. */
  lemma SaveLoadRoundTrip(catalog: map<string, Catalog.CatalogEntry>, before: Settings, saved: Settings)
    requires |before.stratagems| == 5 && Loadable(saved)
    requires forall i :: 0 <= i < 5 ==> Catalog.Listed(catalog, saved.stratagems[i])
    ensures ApplyLoad(catalog, before, Resolve(Export(saved))) == saved
  {
    ResolveExport(saved);
    var r := ApplyLoad(catalog, before, saved);
    assert r.stratagems == saved.stratagems;
  }

  predicate IsSpace(c: char) {
    c == ' ' || c == '\t' || c == '\n' || c == '\r' || c == '\U{0B}' || c == '\U{0C}'
    || c == '\U{1C}' || c == '\U{1D}' || c == '\U{1E}' || c == '\U{1F}'
  }

  /** The index of the first non-whitespace character at or after k, or |s|. */
  function SkipSpaces(s: string, k: nat): (r: nat)
    requires k <= |s|
    decreases |s| - k
    ensures k <= r <= |s|
    ensures forall i :: k <= i < r ==> IsSpace(s[i])
    ensures r < |s| ==> !IsSpace(s[r])
  {
    if k < |s| && IsSpace(s[k]) then SkipSpaces(s, k + 1) else k
  }

  /** The end of the text before k once trailing whitespace is dropped. */
  function SkipSpacesBack(s: string, k: nat): (r: nat)
    requires k <= |s|
    ensures r <= k
    ensures forall i :: r <= i < k ==> IsSpace(s[i])
    ensures r > 0 ==> !IsSpace(s[r - 1])
  {
    if k > 0 && IsSpace(s[k - 1]) then SkipSpacesBack(s, k - 1) else k
  }

  /** Python's `str.strip()` on the ASCII whitespace characters. */
  function Strip(s: string): (r: string)
    ensures r == [] <==> forall i :: 0 <= i < |s| ==> IsSpace(s[i])
    ensures r != [] ==> !IsSpace(r[0]) && !IsSpace(r[|r| - 1])
    ensures |r| <= |s|
  {
    var lo := SkipSpaces(s, 0);
    var hi := SkipSpacesBack(s, |s|);
    if hi <= lo then [] else s[lo..hi]
  }

  /** Why a profile operation was refused. */
  datatype ProfileError = MissingName | NameTaken | NotFound | CannotDeleteDefault | Declined | Malformed

  /** The profile map after an operation: the new one on success, the old one on a refusal. */
  function Committed(previous: map<string, Profile>, r: Result<map<string, Profile>, ProfileError>): map<string, Profile> {
    if r.Ok? then r.value else previous
  }

  /**
    `load_profile`: the settings after loading the named profile over `current`. Names that
    are empty or unknown are refused; so is a profile whose lists are not five long.
  */
  function LoadProfile(catalog: map<string, Catalog.CatalogEntry>, current: Settings, profiles: map<string, Profile>, name: string): (r: Result<Settings, ProfileError>)
    requires |current.stratagems| == 5
    ensures r.Ok? <==> name != "" && name in profiles && Loadable(Resolve(profiles[name]))
    ensures name == "" || name !in profiles ==> r == Err(NotFound)
    ensures r.Ok? ==> Loadable(r.value) && r.value == ApplyLoad(catalog, current, Resolve(profiles[name]))
  {
    if name == "" || name !in profiles then Err(NotFound)
    else if !Loadable(Resolve(profiles[name])) then Err(Malformed)
    else Ok(ApplyLoad(catalog, current, Resolve(profiles[name])))
  }

  /** A profile saved from settings that are loadable loads back to exactly those settings. */
  lemma SavedProfileLoadsBack(catalog: map<string, Catalog.CatalogEntry>, current: Settings, profiles: map<string, Profile>,
                              name: string, confirmed: bool)
    requires Loadable(current) && name != "" && confirmed
    requires forall i :: 0 <= i < 5 ==> Catalog.Listed(catalog, current.stratagems[i])
    ensures var saved := Committed(profiles, SaveProfile(profiles, name, confirmed, Export(current)));
            LoadProfile(catalog, current, saved, name) == Ok(current)
  {
    var saved := Committed(profiles, SaveProfile(profiles, name, confirmed, Export(current)));
    assert saved[name] == Export(current);
    ResolveExport(current);
    SaveLoadRoundTrip(catalog, current, current);
  }

  /** `create_new_profile`: the stripped entry text names a new profile holding the current settings. */
  function CreateProfile(profiles: map<string, Profile>, entryText: string, snapshot: Profile): (r: Result<map<string, Profile>, ProfileError>)
    ensures var name := Strip(entryText);
      && (r.Ok? <==> name != "" && name !in profiles)
      && (name == "" ==> r == Err(MissingName))
      && (name != "" && name in profiles ==> r == Err(NameTaken))
      && (r.Ok? ==> r.value.Keys == profiles.Keys + {name} && r.value[name] == snapshot
                     && forall n :: n in profiles ==> r.value[n] == profiles[n])
  {
    var name := Strip(entryText);
    if name == "" then Err(MissingName)
    else if name in profiles then Err(NameTaken)
    else Ok(profiles[name := snapshot])
  }

  /** `save_profile`: after confirmation, the selected name holds the current settings. */
  function SaveProfile(profiles: map<string, Profile>, selected: string, confirmed: bool, snapshot: Profile): (r: Result<map<string, Profile>, ProfileError>)
    ensures r.Ok? <==> selected != "" && confirmed
    ensures r.Ok? ==> r.value.Keys == profiles.Keys + {selected} && r.value[selected] == snapshot
    ensures r.Ok? ==> forall n :: n in profiles && n != selected ==> r.value[n] == profiles[n]
  {
    if selected == "" then Err(MissingName)
    else if !confirmed then Err(Declined)
    else Ok(profiles[selected := snapshot])
  }

  /**
    `rename_profile`: the selected profile moves to the stripped entry text. A selected name that
    is not a profile makes `pop` raise, which the source reports as a failure.
  */
  function RenameProfile(profiles: map<string, Profile>, selected: string, entryText: string): (r: Result<map<string, Profile>, ProfileError>)
    ensures var name := Strip(entryText);
      && (r.Ok? <==> selected != "" && name != "" && name !in profiles && selected in profiles)
      && (r.Ok? ==> r.value.Keys == profiles.Keys - {selected} + {name}
                     && r.value[name] == profiles[selected]
                     && |r.value| == |profiles|
                     && forall n :: n in profiles && n != selected ==> r.value[n] == profiles[n])
  {
    var name := Strip(entryText);
    if selected == "" || name == "" then Err(MissingName)
    else if name in profiles then Err(NameTaken)
    else if selected !in profiles then Err(NotFound)
    else
      var r := (map n | n in profiles && n != selected :: profiles[n])[name := profiles[selected]];
      assert r.Keys == profiles.Keys - {selected} + {name};
      assert |profiles.Keys - {selected}| == |profiles| - 1;
      Ok(r)
  }

  /** `confirm_delete_profile` followed by `delete_profile`; the Default profile is never deleted. */
  function DeleteProfile(profiles: map<string, Profile>, name: string, confirmed: bool): (r: Result<map<string, Profile>, ProfileError>)
    ensures r.Ok? <==> name != "" && name in profiles && name != DefaultName && confirmed
    ensures r.Ok? ==> r.value.Keys == profiles.Keys - {name}
    ensures r.Ok? ==> forall n :: n in r.value ==> r.value[n] == profiles[n]
    ensures r.Ok? && DefaultName in profiles ==> DefaultName in r.value
  {
    if name == "" || name !in profiles then Err(NotFound)
    else if name == DefaultName then Err(CannotDeleteDefault)
    else if !confirmed then Err(Declined)
    else Ok(map n | n in profiles && n != name :: profiles[n])
  }

  /** The profile map created when no profile file exists. */
  const InitialProfiles: map<string, Profile> := map[DefaultName := Export(DefaultSettings)]

  /** Renaming and then renaming back restores the map. */
  lemma RenameBack(profiles: map<string, Profile>, a: string, b: string)
    requires a != "" && b != "" && Strip(a) == a && Strip(b) == b
    requires a in profiles && b !in profiles
    ensures RenameProfile(profiles, a, b).Ok?
    ensures RenameProfile(RenameProfile(profiles, a, b).value, b, a) == Ok(profiles)
  {
    var m := RenameProfile(profiles, a, b).value;
    var back := RenameProfile(m, b, a);
    assert back.Ok?;
    assert back.value.Keys == profiles.Keys;
    assert forall n :: n in profiles ==> back.value[n] == profiles[n];
    assert back.value == profiles;
  }
}
