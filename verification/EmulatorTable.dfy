/** The commands that change the emulator table of the configuration: save, delete and
    set-default. Names are compared trimmed and lower-cased, platform keys lower-cased
    only. */
module EmulatorTables {
  import opened Wrappers
  import opened Texts
  import opened Configs

  /** The stored default that says "this platform has no emulator". */
  const NO_EMULATOR: string := "<none>"

  function PositionFrom(emulators: seq<EmulatorEntry>, folded: string, from: nat): (i: Option<nat>)
    ensures i.Some? ==> from <= i.value < |emulators|
    decreases |emulators| - from
  {
    if from >= |emulators| then None
    else if Folded(emulators[from].name) == folded then Some(from)
    else PositionFrom(emulators, folded, from + 1)
  }

  /** The first entry with this folded name. */
  function PositionOf(emulators: seq<EmulatorEntry>, folded: string): (i: Option<nat>)
    ensures i.Some? ==> i.value < |emulators|
  {
    PositionFrom(emulators, folded, 0)
  }

  lemma {:induction false} PositionIsFirst(emulators: seq<EmulatorEntry>, folded: string, from: nat)
    ensures match PositionFrom(emulators, folded, from)
            case Some(i) => Folded(emulators[i].name) == folded
                            && forall k | from <= k < i :: Folded(emulators[k].name) != folded
            case None => forall k | from <= k < |emulators| :: Folded(emulators[k].name) != folded
    decreases |emulators| - from
  {
    hide Folded;
    if from < |emulators| && Folded(emulators[from].name) != folded {
      PositionIsFirst(emulators, folded, from + 1);
    }
  }

  function EntryByName(emulators: seq<EmulatorEntry>, name: string): Option<EmulatorEntry> {
    if Folded(name) == "" then None
    else match PositionOf(emulators, Folded(name))
      case None => None
      case Some(i) => Some(emulators[i])
  }

  // --- platform keys ---------------------------------------------------------------

  /** The order in which a map lists its keys. */
  predicate AtOrBefore(a: string, b: string) {
    a == "" || (b != "" && (a[0] < b[0] || (a[0] == b[0] && AtOrBefore(a[1..], b[1..]))))
  }

  lemma {:induction false} Comparable(a: string, b: string)
    ensures AtOrBefore(a, b) || AtOrBefore(b, a)
    ensures AtOrBefore(a, b) && AtOrBefore(b, a) ==> a == b
    ensures a == b ==> AtOrBefore(a, b)
    decreases |a|
  {
    if a != "" && b != "" {
      Comparable(a[1..], b[1..]);
      assert a == [a[0]] + a[1..] && b == [b[0]] + b[1..];
    }
  }

  lemma {:induction false} Transitive(a: string, b: string, c: string)
    requires AtOrBefore(a, b) && AtOrBefore(b, c)
    ensures AtOrBefore(a, c)
    decreases |a|
  {
    if a != "" && a[0] == b[0] == c[0] {
      Transitive(a[1..], b[1..], c[1..]);
    }
  }

  predicate FirstOf(keys: set<string>, key: string) {
    key in keys && forall k | k in keys :: AtOrBefore(key, k)
  }

  lemma {:induction false} FirstExists(keys: set<string>) returns (key: string)
    requires keys != {}
    ensures FirstOf(keys, key)
  {
    key :| key in keys;
    var rest := keys - {key};
    assert forall k | k in keys :: k == key || k in rest;
    Comparable(key, key);
    if rest != {} {
      var first := FirstExists(rest);
      Comparable(key, first);
      if AtOrBefore(key, first) {
        forall k | k in rest ensures AtOrBefore(key, k) {
          Transitive(key, first, k);
        }
      } else {
        key := first;
      }
    }
  }

  lemma FirstIsUnique(keys: set<string>, a: string, b: string)
    requires FirstOf(keys, a) && FirstOf(keys, b)
    ensures a == b
  {
    assert a in keys && b in keys;
    Comparable(a, b);
  }

  function KeysLike(m: map<string, string>, platform: string): set<string> {
    set k | k in m && Lower(k) == Lower(platform)
  }

  /** The first key that folds like `platform`. */
  ghost function KeyLike(m: map<string, string>, platform: string): (key: Option<string>)
    ensures key.Some? ==> FirstOf(KeysLike(m, platform), key.value)
    ensures key.None? ==> KeysLike(m, platform) == {}
  {
    if KeysLike(m, platform) == {} then None
    else
      assert exists key :: FirstOf(KeysLike(m, platform), key) by {
        var key := FirstExists(KeysLike(m, platform));
      }
      var key :| FirstOf(KeysLike(m, platform), key);
      Some(key)
  }

  ghost function Upserted(m: map<string, string>, platform: string, value: string): map<string, string> {
    if platform in m then m[platform := value]
    else match KeyLike(m, platform)
      case None => m[platform := value]
      case Some(key) => (m - {key})[platform := value]
  }

  ghost function Removed(m: map<string, string>, platform: string): map<string, string> {
    if platform in m then m - {platform}
    else match KeyLike(m, platform)
      case None => m
      case Some(key) => m - {key}
  }

  method FindKey(m: map<string, string>, platform: string) returns (key: Option<string>)
    ensures key == KeyLike(m, platform)
  {
    var keys := KeysLike(m, platform);
    if keys == {} {
      return None;
    }
    ghost var first := FirstExists(keys);
    var k :| FirstOf(keys, k);
    FirstIsUnique(keys, k, KeyLike(m, platform).value);
    return Some(k);
  }

  predicate KeysDistinct(m: map<string, string>) {
    forall j, k | j in m && k in m && Lower(j) == Lower(k) :: j == k
  }

  /** One key for the platform afterwards, spelled as given; no other platform is
      touched. */
  lemma UpsertMeans(m: map<string, string>, platform: string, value: string)
    requires KeysDistinct(m)
    ensures KeysDistinct(Upserted(m, platform, value))
    ensures KeysLike(Upserted(m, platform, value), platform) == {platform}
    ensures Upserted(m, platform, value)[platform] == value
    ensures forall k | Lower(k) != Lower(platform) ::
              (k in Upserted(m, platform, value) <==> k in m) && (k in m ==> Upserted(m, platform, value)[k] == m[k])
  {
    hide Lower;
    assert platform in m ==> platform in KeysLike(m, platform);
    assert forall k | k in m && Lower(k) == Lower(platform) :: k in KeysLike(m, platform);
  }

  lemma RemoveMeans(m: map<string, string>, platform: string)
    requires KeysDistinct(m)
    ensures KeysDistinct(Removed(m, platform)) && KeysLike(Removed(m, platform), platform) == {}
    ensures forall k | Lower(k) != Lower(platform) ::
              (k in Removed(m, platform) <==> k in m) && (k in m ==> Removed(m, platform)[k] == m[k])
  {
    hide Lower;
    assert platform in m ==> platform in KeysLike(m, platform);
    assert forall k | k in m && Lower(k) == Lower(platform) :: k in KeysLike(m, platform);
  }

  // --- save --------------------------------------------------------------------------

  datatype SaveError = NameRequired | ReservedName | AlreadyExists

  function Renamed(c: Config, original: string): (i: Option<nat>)
    ensures i.Some? ==> i.value < |c.emulators|
  {
    if Trim(original) == "" then None else PositionOf(c.emulators, Folded(original))
  }

  function Without(emulators: seq<EmulatorEntry>, i: Option<nat>): seq<EmulatorEntry>
    requires i.Some? ==> i.value < |emulators|
  {
    if i.Some? then emulators[..i.value] + emulators[i.value + 1..] else emulators
  }

  function SaveCheck(c: Config, original: string, entry: EmulatorEntry): Option<SaveError> {
    if Trim(entry.name) == "" then Some(NameRequired)
    else if Trim(entry.name) == NO_EMULATOR then Some(ReservedName)
    else if PositionOf(Without(c.emulators, Renamed(c, original)), Folded(entry.name)).Some? then Some(AlreadyExists)
    else None
  }

  function Repointed(defaults: map<string, string>, original: string, name: string): map<string, string> {
    map k | k in defaults ::
      if Trim(original) != "" && Folded(defaults[k]) == Folded(original) then name else defaults[k]
  }

  /** A saved entry replaces the one it renames in its place, or goes to the end. */
  function Saved(c: Config, original: string, entry: EmulatorEntry): Config {
    c.(emulators := match Renamed(c, original)
                    case Some(i) => c.emulators[i := entry]
                    case None => c.emulators + [entry],
       defaultEmulators := Repointed(c.defaultEmulators, original, entry.name))
  }

  // --- delete and set-default ----------------------------------------------------------

  function Deleted(c: Config, name: string): Config {
    var defaults := map k | k in c.defaultEmulators && Folded(c.defaultEmulators[k]) != Folded(name)
                      :: c.defaultEmulators[k];
    c.(emulators := Kept(c.emulators, Folded(name)),
       defaultEmulators := defaults,
       retroarchCores := map k | k in c.retroarchCores && k in defaults :: c.retroarchCores[k])
  }

  function Kept(emulators: seq<EmulatorEntry>, folded: string): seq<EmulatorEntry> {
    if emulators == [] then []
    else if Folded(emulators[0].name) == folded then Kept(emulators[1..], folded)
    else [emulators[0]] + Kept(emulators[1..], folded)
  }

  /** What the profiles and the disk say of an entry and the platform: whether it
      supports it, whether it is a RetroArch build, and the first core installed. */
  datatype Profile = Profile(
    supports: EmulatorEntry -> bool, retroarch: EmulatorEntry -> bool, core: EmulatorEntry -> Option<string>)

  predicate Supported(c: Config, name: string, profile: Profile) {
    Trim(name) == "" ||
    match EntryByName(c.emulators, Trim(name))
    case None => false
    case Some(entry) => profile.supports(entry)
  }

  function DefaultValue(name: string): string {
    if Trim(name) == "" then NO_EMULATOR else Trim(name)
  }

  /** A core that is not blank is stored for the platform. */
  predicate HasCore(cores: map<string, string>, platform: string) {
    Trim(platform) != "" &&
    exists k :: k in cores && Folded(k) == Folded(platform) && Trim(cores[k]) != ""
  }

  ghost function CoreRecorded(c: Config, platform: string, name: string, profile: Profile): map<string, string> {
    var cores := c.retroarchCores;
    if Trim(name) == "" || HasCore(cores, platform) then cores
    else match EntryByName(c.emulators, Trim(name))
      case None => cores
      case Some(entry) =>
        if !profile.retroarch(entry) then cores
        else match profile.core(entry)
          case None => cores
          case Some(core) => Upserted(cores, platform, core)
  }

  predicate IsRetroArch(c: Config, name: string, profile: Profile) {
    match EntryByName(c.emulators, Trim(name))
    case None => false
    case Some(entry) => profile.retroarch(entry)
  }

  ghost function DefaultSet(c: Config, platform: string, name: string, profile: Profile): Config {
    var cores := CoreRecorded(c, platform, name, profile);
    c.(defaultEmulators := Upserted(c.defaultEmulators, platform, DefaultValue(name)),
       retroarchCores := if IsRetroArch(c, name, profile) then cores else Removed(cores, platform))
  }

  // --- the merge helpers, in place -------------------------------------------------------

  class MutableConfig {
    var config: Config

    constructor (c: Config)
      ensures config == c
    {
      config := c;
    }

    /** On a duplicate the entry being renamed is already gone from memory; the caller
        drops the configuration without saving it. */
    method ApplySaveEmulator(original: string, entry: EmulatorEntry) returns (r: Option<SaveError>)
      modifies this
      ensures r == SaveCheck(old(config), original, entry)
      ensures r == None ==> config == Saved(old(config), original, entry)
      ensures r == Some(AlreadyExists) ==>
        config == old(config).(emulators := Without(old(config).emulators, Renamed(old(config), original)))
      ensures r == Some(NameRequired) || r == Some(ReservedName) ==> config == old(config)
    {
      hide Trim, Folded;
      if Trim(entry.name) == "" {
        return Some(NameRequired);
      }
      if Trim(entry.name) == NO_EMULATOR {
        return Some(ReservedName);
      }
      var originalIndex: Option<nat> := None;
      if Trim(original) != "" {
        originalIndex := PositionOf(config.emulators, Folded(original));
        if originalIndex.Some? {
          var i := originalIndex.value;
          config := config.(emulators := config.emulators[..i] + config.emulators[i + 1..]);
        }
      }
      if PositionOf(config.emulators, Folded(entry.name)).Some? {
        return Some(AlreadyExists);
      }
      if Trim(original) != "" {
        config := config.(defaultEmulators :=
          map k | k in config.defaultEmulators ::
            if Folded(config.defaultEmulators[k]) == Folded(original) then entry.name else config.defaultEmulators[k]);
      }
      assert config.defaultEmulators == Repointed(old(config).defaultEmulators, original, entry.name);
      match originalIndex {
        case Some(i) =>
          config := config.(emulators := config.emulators[..i] + [entry] + config.emulators[i..]);
          assert config.emulators == old(config).emulators[i := entry];
        case None =>
          config := config.(emulators := config.emulators + [entry]);
      }
      return None;
    }

    method ApplyDeleteEmulator(name: string)
      modifies this
      ensures config == Deleted(old(config), name)
    {
      var folded := Folded(name);
      config := config.(emulators := Kept(config.emulators, folded));
      config := config.(defaultEmulators :=
        map k | k in config.defaultEmulators && Folded(config.defaultEmulators[k]) != folded
          :: config.defaultEmulators[k]);
      config := config.(retroarchCores :=
        map k | k in config.retroarchCores && k in config.defaultEmulators :: config.retroarchCores[k]);
    }

    method UpsertPlatformKey(m: map<string, string>, platform: string, value: string)
        returns (r: map<string, string>)
      ensures r == Upserted(m, platform, value)
    {
      r := m;
      if platform in r {
        r := r[platform := value];
        return;
      }
      var key := FindKey(r, platform);
      if key.Some? {
        r := r - {key.value};
      }
      r := r[platform := value];
    }

    method RemovePlatformKey(m: map<string, string>, platform: string) returns (r: map<string, string>)
      ensures r == Removed(m, platform)
    {
      r := m;
      if platform in r {
        r := r - {platform};
        return;
      }
      var key := FindKey(r, platform);
      if key.Some? {
        r := r - {key.value};
      }
    }

    /** The check, the default, the recorded core and the cleared core of one command. */
    method SetDefaultEmulator(platform: string, name: string, profile: Profile) returns (ok: bool)
      modifies this
      ensures ok == Supported(old(config), name, profile)
      ensures config == if ok then DefaultSet(old(config), platform, name, profile) else old(config)
    {
      ok := Supported(config, name, profile);
      if !ok {
        return;
      }
      var defaults := UpsertPlatformKey(config.defaultEmulators, platform, DefaultValue(name));
      config := config.(defaultEmulators := defaults);
      var entry := EntryByName(config.emulators, Trim(name));
      if Trim(name) != "" && !HasCore(config.retroarchCores, platform) {
        if entry.Some? && profile.retroarch(entry.value) {
          var core := profile.core(entry.value);
          if core.Some? {
            var cores := UpsertPlatformKey(config.retroarchCores, platform, core.value);
            config := config.(retroarchCores := cores);
          }
        }
      }
      if !IsRetroArch(config, name, profile) {
        var cores := RemovePlatformKey(config.retroarchCores, platform);
        config := config.(retroarchCores := cores);
      }
    }
  }

  // --- integrity over all runs --------------------------------------------------------------

  datatype Command =
    | Save(original: string, entry: EmulatorEntry)
    | Delete(name: string)
    | SetDefault(platform: string, name: string, profile: Profile)

  predicate Accepted(c: Config, cmd: Command) {
    match cmd
    case Save(original, entry) => SaveCheck(c, original, entry) == None
    case Delete(_) => true
    case SetDefault(_, name, profile) => Supported(c, name, profile)
  }

  /** What a command leaves on disk: a refused one saves nothing. */
  ghost function Execute(c: Config, cmd: Command): Config {
    if !Accepted(c, cmd) then c
    else match cmd
      case Save(original, entry) => Saved(c, original, entry)
      case Delete(name) => Deleted(c, name)
      case SetDefault(platform, name, profile) => DefaultSet(c, platform, name, profile)
  }

  ghost function ExecuteAll(c: Config, cmds: seq<Command>): Config
    decreases |cmds|
  {
    if cmds == [] then c else ExecuteAll(Execute(c, cmds[0]), cmds[1..])
  }

  predicate NamesDistinct(emulators: seq<EmulatorEntry>) {
    forall i, j | 0 <= i < j < |emulators| :: Folded(emulators[i].name) != Folded(emulators[j].name)
  }

  predicate NamesNotBlank(emulators: seq<EmulatorEntry>) {
    forall i | 0 <= i < |emulators| :: Trim(emulators[i].name) != ""
  }

  predicate Names(emulators: seq<EmulatorEntry>, value: string) {
    exists i :: 0 <= i < |emulators| && Folded(emulators[i].name) == Folded(value)
  }

  predicate DefaultsNamed(defaults: map<string, string>, emulators: seq<EmulatorEntry>) {
    forall k | k in defaults :: defaults[k] == NO_EMULATOR || Names(emulators, defaults[k])
  }

  predicate TableInv(c: Config) {
    && NamesDistinct(c.emulators) && NamesNotBlank(c.emulators)
    && KeysDistinct(c.defaultEmulators) && KeysDistinct(c.retroarchCores)
    && DefaultsNamed(c.defaultEmulators, c.emulators)
  }

  lemma FoldedTrim(name: string)
    ensures Folded(Trim(name)) == Folded(name)
  {
    TrimTwice(name);
  }

  lemma SaveKeepsTable(c: Config, original: string, entry: EmulatorEntry)
    requires TableInv(c) && SaveCheck(c, original, entry) == None
    ensures TableInv(Saved(c, original, entry))
  {
    var s := Saved(c, original, entry);
    SaveKeepsNames(c, original, entry);
    SaveKeepsDefaults(c, original, entry);
    SameKeys(c.defaultEmulators, s.defaultEmulators);
    hide Trim, Lower, KeysDistinct, NamesDistinct, DefaultsNamed, Renamed, Without;
  }

  lemma SaveKeepsNames(c: Config, original: string, entry: EmulatorEntry)
    requires NamesDistinct(c.emulators) && SaveCheck(c, original, entry) == None
    ensures NamesDistinct(Saved(c, original, entry).emulators)
  {
    hide Trim, Lower;
    var es := c.emulators;
    var others := Without(es, Renamed(c, original));
    PositionIsFirst(others, Folded(entry.name), 0);
    forall i | 0 <= i < |es| && Renamed(c, original) != Some(i)
      ensures Folded(es[i].name) != Folded(entry.name)
    {
      match Renamed(c, original)
      case None =>
      case Some(r) => assert others[if i < r then i else i - 1] == es[i];
    }
  }

  lemma SaveKeepsDefaults(c: Config, original: string, entry: EmulatorEntry)
    requires DefaultsNamed(c.defaultEmulators, c.emulators)
    ensures var s := Saved(c, original, entry); DefaultsNamed(s.defaultEmulators, s.emulators)
  {
    hide Trim, Lower;
    var es, s := c.emulators, Saved(c, original, entry);
    PositionIsFirst(es, Folded(original), 0);
    assert Names(s.emulators, entry.name) by {
      var at := match Renamed(c, original) case Some(i) => i case None => |es|;
      assert s.emulators[at] == entry;
    }
    forall k | k in s.defaultEmulators
      ensures s.defaultEmulators[k] == NO_EMULATOR || Names(s.emulators, s.defaultEmulators[k])
    {
      var v := c.defaultEmulators[k];
      if s.defaultEmulators[k] == v && v != NO_EMULATOR {
        var i :| 0 <= i < |es| && Folded(es[i].name) == Folded(v);
        if Renamed(c, original) != Some(i) {
          assert s.emulators[i] == es[i];
        }
      }
    }
  }

  lemma SameKeys(m: map<string, string>, m': map<string, string>)
    requires KeysDistinct(m) && forall k | k in m' :: k in m
    ensures KeysDistinct(m')
  {}

  /** What is kept is each entry with another name, one by one and in order. */
  lemma {:induction false} KeptInOrder(before: seq<EmulatorEntry>, after: seq<EmulatorEntry>, folded: string)
    ensures Kept(before + after, folded) == Kept(before, folded) + Kept(after, folded)
    decreases |before|
  {
    hide Folded;
    if before == [] {
      assert before + after == after;
    } else {
      var rest := before[1..];
      assert (before + after)[1..] == rest + after && (before + after)[0] == before[0];
      KeptInOrder(rest, after, folded);
      AppendAssoc([before[0]], Kept(rest, folded), Kept(after, folded));
      hide Kept;
      KeptStep(before, folded);
      KeptStep(before + after, folded);
    }
  }

  lemma KeptStep(emulators: seq<EmulatorEntry>, folded: string)
    requires emulators != []
    ensures Kept(emulators, folded)
         == (if Folded(emulators[0].name) == folded then [] else [emulators[0]]) + Kept(emulators[1..], folded)
  {}

  lemma KeptOne(e: EmulatorEntry, folded: string)
    ensures Kept([e], folded) == if Folded(e.name) == folded then [] else [e]
  {
    KeptStep([e], folded);
  }

  /** What is kept is everything with another name, in its order. */
  lemma {:induction false} KeptMeans(emulators: seq<EmulatorEntry>, folded: string)
    ensures forall e :: e in Kept(emulators, folded) <==> e in emulators && Folded(e.name) != folded
    ensures NamesDistinct(emulators) ==> NamesDistinct(Kept(emulators, folded))
  {
    hide Folded;
    if emulators != [] {
      var rest := emulators[1..];
      assert emulators == [emulators[0]] + rest;
      KeptMeans(rest, folded);
      if NamesDistinct(emulators) {
        assert NamesDistinct(rest);
        assert forall e | e in rest :: Folded(e.name) != Folded(emulators[0].name);
      }
    }
  }

  lemma DeleteKeepsTable(c: Config, name: string)
    requires TableInv(c)
    ensures TableInv(Deleted(c, name))
  {
    hide Trim, Lower, KeysDistinct;
    var es, kept := c.emulators, Kept(c.emulators, Folded(name));
    KeptMeans(es, Folded(name));
    var d := Deleted(c, name);
    forall k | k in d.defaultEmulators && d.defaultEmulators[k] != NO_EMULATOR
      ensures Names(kept, d.defaultEmulators[k])
    {
      var i :| 0 <= i < |es| && Folded(es[i].name) == Folded(c.defaultEmulators[k]);
      assert es[i] in kept;
    }
    assert forall e | e in kept :: e in es;
    SameKeys(c.defaultEmulators, d.defaultEmulators);
    SameKeys(c.retroarchCores, d.retroarchCores);
  }

  lemma SetDefaultKeepsTable(c: Config, platform: string, name: string, profile: Profile)
    requires TableInv(c) && Supported(c, name, profile)
    ensures TableInv(DefaultSet(c, platform, name, profile))
  {
    var d := DefaultSet(c, platform, name, profile);
    UpsertMeans(c.defaultEmulators, platform, DefaultValue(name));
    CoreRecordedMeans(c, platform, name, profile);
    RemoveMeans(CoreRecorded(c, platform, name, profile), platform);
    DefaultValueNamed(c, name, profile);
    hide Trim, Lower, KeysDistinct, Upserted, Removed, CoreRecorded, DefaultsNamed, DefaultValue, Supported;
    UpsertNamed(c.defaultEmulators, platform, DefaultValue(name), c.emulators);
  }

  lemma DefaultValueNamed(c: Config, name: string, profile: Profile)
    requires Supported(c, name, profile)
    ensures DefaultValue(name) == NO_EMULATOR || Names(c.emulators, DefaultValue(name))
  {
    hide Trim, Folded;
    if Trim(name) != "" {
      PositionIsFirst(c.emulators, Folded(Trim(name)), 0);
    }
  }

  lemma UpsertNamed(m: map<string, string>, platform: string, value: string, emulators: seq<EmulatorEntry>)
    requires DefaultsNamed(m, emulators) && (value == NO_EMULATOR || Names(emulators, value))
    ensures DefaultsNamed(Upserted(m, platform, value), emulators)
  {}

  lemma CoreRecordedMeans(c: Config, platform: string, name: string, profile: Profile)
    requires KeysDistinct(c.retroarchCores)
    ensures KeysDistinct(CoreRecorded(c, platform, name, profile))
  {
    forall core: string ensures KeysDistinct(Upserted(c.retroarchCores, platform, core)) {
      UpsertMeans(c.retroarchCores, platform, core);
    }
  }

  lemma CommandKeepsTable(c: Config, cmd: Command)
    requires TableInv(c)
    ensures TableInv(Execute(c, cmd))
  {
    hide TableInv;
    if Accepted(c, cmd) {
      match cmd
      case Save(original, entry) => SaveKeepsTable(c, original, entry);
      case Delete(name) => DeleteKeepsTable(c, name);
      case SetDefault(platform, name, profile) => SetDefaultKeepsTable(c, platform, name, profile);
    }
  }

  /** Integrity: over every run of commands, refused ones included, names and keys stay
      distinct and every default but the marker names an existing entry. */
  lemma {:induction false} TableOverRuns(c: Config, cmds: seq<Command>)
    requires TableInv(c)
    ensures TableInv(ExecuteAll(c, cmds))
    decreases |cmds|
  {
    if cmds != [] {
      CommandKeepsTable(c, cmds[0]);
      TableOverRuns(Execute(c, cmds[0]), cmds[1..]);
    }
  }

  // --- what one command does ----------------------------------------------------------------

  lemma LookupIsMembership(emulators: seq<EmulatorEntry>, name: string, e: EmulatorEntry)
    requires NamesDistinct(emulators)
    ensures EntryByName(emulators, name) == Some(e)
       <==> e in emulators && Folded(e.name) == Folded(name) && Folded(name) != ""
    ensures EntryByName(emulators, name) == None <==> Folded(name) == "" || !Names(emulators, name)
  {
    hide Folded;
    PositionIsFirst(emulators, Folded(name), 0);
  }

  lemma LookupAt(emulators: seq<EmulatorEntry>, name: string, i: nat)
    requires NamesDistinct(emulators) && i < |emulators|
    requires Folded(emulators[i].name) == Folded(name) && Trim(emulators[i].name) != ""
    ensures EntryByName(emulators, name) == Some(emulators[i])
  {
    NotBlankFolded(emulators[i].name);
    LookupIsMembership(emulators, name, emulators[i]);
  }

  /** What a save writes: the entry in place of the one it renames, or at the end; the
      defaults that named the renamed one under the new name; and nothing else. */
  lemma SaveMeans(c: Config, original: string, entry: EmulatorEntry)
    ensures var s := Saved(c, original, entry);
      && s == c.(emulators := s.emulators, defaultEmulators := s.defaultEmulators)
      && s.emulators == (match Renamed(c, original)
                         case Some(i) => c.emulators[..i] + [entry] + c.emulators[i + 1..]
                         case None => c.emulators + [entry])
      && s.defaultEmulators.Keys == c.defaultEmulators.Keys
      && forall k | k in c.defaultEmulators ::
           s.defaultEmulators[k] == if Trim(original) != "" && Folded(c.defaultEmulators[k]) == Folded(original)
                                    then entry.name else c.defaultEmulators[k]
  {
    hide Folded, Trim, Renamed;
    match Renamed(c, original)
    case None =>
    case Some(i) => assert c.emulators[i := entry] == c.emulators[..i] + [entry] + c.emulators[i + 1..];
  }

  /** What a save renames: the first entry with the old name, unless that is blank. */
  lemma RenamedMeans(c: Config, original: string)
    ensures match Renamed(c, original)
            case Some(i) =>
              && Trim(original) != "" && i < |c.emulators| && Folded(c.emulators[i].name) == Folded(original)
              && forall k | 0 <= k < i :: Folded(c.emulators[k].name) != Folded(original)
            case None => Trim(original) == "" || forall e | e in c.emulators :: Folded(e.name) != Folded(original)
  {
    PositionIsFirst(c.emulators, Folded(original), 0);
    hide Folded, Trim;
  }

  /** A save is refused exactly for a blank name, the marker, or the name of an entry
      other than the one it renames. */
  lemma SaveRefusedIff(c: Config, original: string, entry: EmulatorEntry)
    ensures SaveCheck(c, original, entry) == None
       <==> && Trim(entry.name) != "" && Trim(entry.name) != NO_EMULATOR
            && (forall i: nat | i < |c.emulators| && Folded(c.emulators[i].name) == Folded(entry.name) ::
                  Renamed(c, original) == Some(i))
    ensures SaveCheck(c, original, entry) == Some(NameRequired) <==> Trim(entry.name) == ""
    ensures SaveCheck(c, original, entry) == Some(ReservedName)
       <==> Trim(entry.name) != "" && Trim(entry.name) == "<none>"
  {
    hide Folded, Trim, Without, Renamed;
    var others := Without(c.emulators, Renamed(c, original));
    WithoutMeans(c.emulators, Renamed(c, original));
    PositionIsFirst(others, Folded(entry.name), 0);
    match PositionOf(others, Folded(entry.name))
    case None =>
    case Some(j) => assert others[j] in others;
  }

  lemma WithoutMeans(emulators: seq<EmulatorEntry>, at: Option<nat>)
    requires at.Some? ==> at.value < |emulators|
    ensures forall i: nat | i < |emulators| && at != Some(i) :: emulators[i] in Without(emulators, at)
    ensures forall e | e in Without(emulators, at) ::
              exists i: nat :: i < |emulators| && emulators[i] == e && at != Some(i)
  {
    var others := Without(emulators, at);
    forall i: nat | i < |emulators| && at != Some(i)
      ensures emulators[i] in others
    {
      match at
      case None =>
      case Some(r) => assert others[if i < r then i else i - 1] == emulators[i];
    }
    forall j | 0 <= j < |others|
      ensures exists i: nat :: i < |emulators| && emulators[i] == others[j] && at != Some(i)
    {
      match at
      case None => assert emulators[j] == others[j];
      case Some(r) => assert emulators[if j < r then j else j + 1] == others[j];
    }
  }

  /** A rename carries its defaults along and moves no entry: each default but the marker
      resolves to the entry it resolved to, or to the new one if that was renamed. */
  lemma RenameCarriesDefaults(c: Config, original: string, entry: EmulatorEntry, platform: string)
    requires TableInv(c) && SaveCheck(c, original, entry) == None
    requires platform in c.defaultEmulators && c.defaultEmulators[platform] != NO_EMULATOR
    ensures var s := Saved(c, original, entry);
      var before := EntryByName(c.emulators, c.defaultEmulators[platform]);
      && s.defaultEmulators.Keys == c.defaultEmulators.Keys
      && EntryByName(s.emulators, s.defaultEmulators[platform])
         == match Renamed(c, original)
            case None => before
            case Some(i) => if before == Some(c.emulators[i]) then Some(entry) else before
    ensures var s := Saved(c, original, entry);
      match Renamed(c, original)
      case None => s.emulators == c.emulators + [entry]
      case Some(i) =>
        && |s.emulators| == |c.emulators|
        && forall j | 0 <= j < |c.emulators| && j != i :: s.emulators[j] == c.emulators[j]
  {
    hide Folded, Trim, KeysDistinct, EntryByName;
    var s := Saved(c, original, entry);
    var value := c.defaultEmulators[platform];
    SaveKeepsTable(c, original, entry);
    assert Names(c.emulators, value);
    var i: nat :| i < |c.emulators| && Folded(c.emulators[i].name) == Folded(value);
    LookupAt(c.emulators, value, i);
    PositionIsFirst(c.emulators, Folded(original), 0);
    match Renamed(c, original)
    case None =>
      LookupAt(s.emulators, value, i);
    case Some(r) =>
      if r == i {
        LookupAt(s.emulators, entry.name, i);
      } else {
        assert Folded(c.emulators[i].name) != Folded(c.emulators[r].name);
        LookupAt(s.emulators, value, i);
      }
  }

  lemma NotBlankFolded(name: string)
    requires Trim(name) != ""
    ensures Folded(name) != ""
  {}

  /** Deleting takes the entry and the defaults that name it; every other name resolves
      as before. */
  lemma DeleteMeans(c: Config, name: string, other: string)
    requires TableInv(c)
    ensures var d := Deleted(c, name);
      && EntryByName(d.emulators, other)
         == (if Folded(other) == Folded(name) then None else EntryByName(c.emulators, other))
      && (forall k :: k in d.defaultEmulators
                 <==> k in c.defaultEmulators && Folded(c.defaultEmulators[k]) != Folded(name))
      && (forall k | k in d.defaultEmulators :: d.defaultEmulators[k] == c.defaultEmulators[k])
      && (forall k :: k in d.retroarchCores <==> k in c.retroarchCores && k in d.defaultEmulators)
      && (forall k | k in d.retroarchCores :: d.retroarchCores[k] == c.retroarchCores[k])
      && d == c.(emulators := d.emulators, defaultEmulators := d.defaultEmulators,
                 retroarchCores := d.retroarchCores)
      && d.emulators == Kept(c.emulators, Folded(name))
  {
    var kept := Kept(c.emulators, Folded(name));
    KeptMeans(c.emulators, Folded(name));
    match EntryByName(c.emulators, other)
    case Some(e) =>
      LookupIsMembership(c.emulators, other, e);
      LookupIsMembership(kept, other, e);
      if Folded(other) == Folded(name) {
        assert forall k | k in kept :: Folded(k.name) != Folded(other);
      }
    case None =>
      LookupIsMembership(c.emulators, other, EmulatorEntry("", ""));
      LookupIsMembership(kept, other, EmulatorEntry("", ""));
      assert forall k | k in kept :: k in c.emulators;
  }

  /** A default set is the platform's only one and names what was picked; no other
      platform's default changes, and an emulator that is not RetroArch leaves the
      platform no core. */
  lemma SetDefaultMeans(c: Config, platform: string, name: string, profile: Profile)
    requires TableInv(c) && Supported(c, name, profile)
    ensures var d := DefaultSet(c, platform, name, profile);
      && d.emulators == c.emulators
      && KeysLike(d.defaultEmulators, platform) == {platform}
      && (if Trim(name) == "" then d.defaultEmulators[platform] == NO_EMULATOR
          else d.defaultEmulators[platform] == Trim(name)
               && EntryByName(d.emulators, Trim(name)) == EntryByName(c.emulators, name) != None)
      && (forall k | Lower(k) != Lower(platform) ::
            && (k in d.defaultEmulators <==> k in c.defaultEmulators)
            && (k in c.defaultEmulators ==> d.defaultEmulators[k] == c.defaultEmulators[k]))
      && d == c.(defaultEmulators := d.defaultEmulators, retroarchCores := d.retroarchCores)
      && (!IsRetroArch(c, name, profile) ==> KeysLike(d.retroarchCores, platform) == {})
  {
    UpsertMeans(c.defaultEmulators, platform, DefaultValue(name));
    assert platform in KeysLike(Upserted(c.defaultEmulators, platform, DefaultValue(name)), platform);
    CoreRecordedMeans(c, platform, name, profile);
    RemoveMeans(CoreRecorded(c, platform, name, profile), platform);
    FoldedTrim(name);
  }

  /** The first core installed for a RetroArch entry that was picked. */
  function FirstCore(c: Config, name: string, profile: Profile): Option<string> {
    match EntryByName(c.emulators, Trim(name))
    case None => None
    case Some(entry) => profile.core(entry)
  }

  /** The cores after a default is set: those of other platforms stay; an emulator that is
      not RetroArch leaves the platform none; RetroArch leaves what is stored, or records
      the first core installed if nothing is. */
  lemma SetDefaultCores(c: Config, platform: string, name: string, profile: Profile)
    requires TableInv(c) && Supported(c, name, profile)
    ensures CoresSet(c, DefaultSet(c, platform, name, profile).retroarchCores, platform, name, profile)
  {
    CoreRecordedMeans(c, platform, name, profile);
    var recorded := CoreRecorded(c, platform, name, profile);
    RecordedCores(c, platform, name, profile);
    RemoveMeans(recorded, platform);
    BlankIsNobody(c, name);
    hide Trim, Lower, KeysDistinct, Removed, CoreRecorded, EntryByName;
  }

  ghost predicate CoresSet(c: Config, cores: map<string, string>, platform: string, name: string, profile: Profile) {
    && OthersStay(c.retroarchCores, cores, platform)
    && (if Trim(name) == "" || !IsRetroArch(c, name, profile) then KeysLike(cores, platform) == {}
        else if || FirstCore(c, name, profile).None?
                || (Trim(platform) != "" && exists k :: k in c.retroarchCores && Folded(k) == Folded(platform)
                                                        && Trim(c.retroarchCores[k]) != "")
        then cores == c.retroarchCores
        else KeysLike(cores, platform) == {platform} && platform in cores
             && cores[platform] == FirstCore(c, name, profile).value)
  }

  ghost predicate OthersStay(before: map<string, string>, after: map<string, string>, platform: string) {
    forall k | Lower(k) != Lower(platform) ::
      (k in after <==> k in before) && (k in before ==> after[k] == before[k])
  }

  lemma RecordedCores(c: Config, platform: string, name: string, profile: Profile)
    requires KeysDistinct(c.retroarchCores)
    ensures var recorded := CoreRecorded(c, platform, name, profile);
      && OthersStay(c.retroarchCores, recorded, platform)
      && (Trim(name) != "" && IsRetroArch(c, name, profile) ==>
          CoresSet(c, recorded, platform, name, profile))
  {
    match FirstCore(c, name, profile)
    case None =>
    case Some(core) =>
      UpsertMeans(c.retroarchCores, platform, core);
      assert platform in KeysLike(Upserted(c.retroarchCores, platform, core), platform);
    hide Trim, Lower, KeysDistinct, Upserted, EntryByName;
  }

  lemma BlankIsNobody(c: Config, name: string)
    ensures Trim(name) == "" ==> EntryByName(c.emulators, Trim(name)) == None
  {
  }

  /** A pick is refused exactly if it names no entry or one that does not support the
      platform; "none" never is. */
  lemma SupportedIff(c: Config, name: string, profile: Profile)
    requires TableInv(c)
    ensures Supported(c, name, profile)
       <==> Trim(name) == "" || exists e :: e in c.emulators && Folded(e.name) == Folded(name) && profile.supports(e)
    ensures IsRetroArch(c, name, profile)
       <==> exists e :: e in c.emulators && Folded(e.name) == Folded(name) && profile.retroarch(e)
  {
    FoldedTrim(name);
    forall e | e in c.emulators ensures Folded(e.name) != "" {
      NotBlankFolded(e.name);
    }
    match EntryByName(c.emulators, Trim(name))
    case Some(e) => SupportedBy(c, name, e);
    case None =>
      LookupIsMembership(c.emulators, Trim(name), EmulatorEntry("", ""));
      hide Folded, Trim;
      assert forall e | e in c.emulators && Folded(e.name) == Folded(name) :: Names(c.emulators, Trim(name));
  }

  lemma SupportedBy(c: Config, name: string, e: EmulatorEntry)
    requires NamesDistinct(c.emulators) && EntryByName(c.emulators, Trim(name)) == Some(e)
    ensures e in c.emulators && Folded(e.name) == Folded(name)
    ensures forall f | f in c.emulators && Folded(f.name) == Folded(name) :: f == e
  {
    FoldedTrim(name);
    LookupIsMembership(c.emulators, Trim(name), e);
    hide Folded, Trim, EntryByName;
  }

  // --- where the marker and the cores fall short -------------------------------------------------

  predicate MarkersKept(before: map<string, string>, after: map<string, string>) {
    forall k | k in before && before[k] == NO_EMULATOR :: k in after && after[k] == NO_EMULATOR
  }

  lemma MarkerFoldsToItself()
    ensures Trim(NO_EMULATOR) == NO_EMULATOR && Folded(NO_EMULATOR) == NO_EMULATOR
  {
    assert Lower(NO_EMULATOR) == NO_EMULATOR;
  }

  /** A save keeps every stored "no emulator" choice if and only if there is none or the
      renamed name does not fold to the marker; likewise a delete. */
  lemma MarkersAreExact(c: Config, name: string, entry: EmulatorEntry)
    ensures SaveCheck(c, name, entry) == None ==>
      (MarkersKept(c.defaultEmulators, Saved(c, name, entry).defaultEmulators)
       <==> Folded(name) != NO_EMULATOR || NO_EMULATOR !in c.defaultEmulators.Values)
    ensures MarkersKept(c.defaultEmulators, Deleted(c, name).defaultEmulators)
       <==> Folded(name) != NO_EMULATOR || NO_EMULATOR !in c.defaultEmulators.Values
  {
    MarkerFoldsToItself();
    hide PositionOf, Lower;
    if NO_EMULATOR in c.defaultEmulators.Values {
      var k :| k in c.defaultEmulators && c.defaultEmulators[k] == NO_EMULATOR;
    }
  }

  /** An entry whose name folds to the marker is accepted, and deleting it forgets a
      stored "no emulator" choice. */
  lemma MarkerChoiceIsForgotten(profile: Profile)
    ensures var cmds := [Save("", EmulatorEntry("<NONE>", "")), SetDefault("GameCube", "", profile)];
      && ExecuteAll(DEFAULT_CONFIG, cmds).defaultEmulators == map["GameCube" := NO_EMULATOR]
      && Deleted(ExecuteAll(DEFAULT_CONFIG, cmds), "<NONE>").defaultEmulators == map[]
  {
    var save, pick := Save("", EmulatorEntry("<NONE>", "")), SetDefault("GameCube", "", profile);
    hide Trim, Lower, Saved, SaveCheck, Upserted, DefaultSet, Deleted;
    NoneIsSaved(DEFAULT_CONFIG);
    var c1 := Execute(DEFAULT_CONFIG, save);
    NoneIsPicked(c1, profile);
    assert [save, pick][1..] == [pick] && [pick][1..] == [];
    assert ExecuteAll(DEFAULT_CONFIG, [save, pick]) == ExecuteAll(c1, [pick]) == Execute(c1, pick);
    NoneIsDeleted(Execute(c1, pick));
  }

  lemma NoneIsSaved(c: Config)
    requires c == DEFAULT_CONFIG
    ensures Execute(c, Save("", EmulatorEntry("<NONE>", "")))
         == c.(emulators := [EmulatorEntry("<NONE>", "")])
  {
    assert Trim("<NONE>") == "<NONE>" && Trim("") == "";
    assert SaveCheck(c, "", EmulatorEntry("<NONE>", "")) == None;
    assert Repointed(map[], "", "<NONE>") == map[];
  }

  lemma NoneIsPicked(c: Config, profile: Profile)
    requires c == DEFAULT_CONFIG.(emulators := [EmulatorEntry("<NONE>", "")])
    ensures Execute(c, SetDefault("GameCube", "", profile)).defaultEmulators == map["GameCube" := NO_EMULATOR]
  {
    hide Lower;
    assert Trim("") == "";
    assert KeysLike(map[], "GameCube") == {};
  }

  lemma NoneIsDeleted(c: Config)
    requires c.defaultEmulators == map["GameCube" := NO_EMULATOR]
    ensures Deleted(c, "<NONE>").defaultEmulators == map[]
  {
    MarkerFoldsToItself();
    assert Trim("<NONE>") == "<NONE>";
    assert Lower("<NONE>") == NO_EMULATOR;
  }

  /** Deleting one emulator keeps the core of a platform whose default is another if and
      only if the core and the default are stored under the same spelling. */
  lemma CoresAreExact(c: Config, name: string, coreKey: string, defaultKey: string)
    requires TableInv(c) && coreKey in c.retroarchCores && defaultKey in c.defaultEmulators
    requires Lower(coreKey) == Lower(defaultKey) && Folded(c.defaultEmulators[defaultKey]) != Folded(name)
    ensures coreKey in Deleted(c, name).retroarchCores <==> coreKey == defaultKey
  {}

  /** RetroArch picked for a platform under one spelling and then under another. */
  function PickedTwice(name: string, a: string, b: string, profile: Profile): seq<Command> {
    [SetDefault(a, name, profile), SetDefault(b, name, profile)]
  }

  /** Such a platform keeps its core under the first spelling and its default under the
      second, so deleting another emulator loses the core: from every whole table with
      no core stored for the platform and a supported RetroArch entry with an installed
      core, two picks and one delete. */
  lemma RespellingLosesCore(c: Config, name: string, other: string, a: string, b: string, profile: Profile)
    requires TableInv(c) && Folded(other) != Folded(name)
    requires a != b && Lower(a) == Lower(b) && Folded(a) == Folded(b) && Trim(a) != ""
    requires KeysLike(c.retroarchCores, a) == {} && !HasCore(c.retroarchCores, a)
    requires Supported(c, name, profile) && IsRetroArch(c, name, profile) && Trim(name) != ""
    requires
      var core := profile.core(EntryByName(c.emulators, Trim(name)).value);
      core.Some? && Trim(core.value) != ""
    ensures var d := ExecuteAll(c, PickedTwice(name, a, b, profile));
      && b in d.defaultEmulators && d.defaultEmulators[b] == Trim(name) && a in d.retroarchCores
      && b in Deleted(d, other).defaultEmulators
      && KeysLike(Deleted(d, other).retroarchCores, b) == {}
  {
    var first, second := SetDefault(a, name, profile), SetDefault(b, name, profile);
    FirstPickRecords(c, name, a, profile);
    CommandKeepsTable(c, first);
    hide Trim, Lower, Execute, TableInv, Upserted, HasCore, EntryByName, Deleted;
    var d1 := Execute(c, first);
    SecondPickRecordsNothing(d1, name, a, b, profile);
    var d2 := Execute(d1, second);
    assert [first, second][1..] == [second] && [second][1..] == [];
    assert ExecuteAll(c, [first, second]) == ExecuteAll(d1, [second]) == d2;
    assert KeysDistinct(d1.defaultEmulators) by { TableHasDistinctKeys(d1); }
    UpsertMeans(d1.defaultEmulators, b, Trim(name));
    FoldedTrim(name);
    DeleteLosesCore(d2, other, a, b);
  }

  const RETROARCH := EmulatorEntry("RetroArch", "")
  const DOLPHIN := EmulatorEntry("Dolphin", "")
  const WITH_BOTH := DEFAULT_CONFIG.(emulators := [RETROARCH, DOLPHIN])

  /** RetroArch supports everything and has one core on disk. */
  const ONE_CORE := Profile(_ => true, (e: EmulatorEntry) => e == RETROARCH, _ => Some("snes9x"))

  lemma NamesApart()
    ensures Trim("RetroArch") == "RetroArch" && Trim("Dolphin") == "Dolphin"
    ensures Folded("RetroArch") != Folded("Dolphin") && Folded("RetroArch") != ""
  {
    TrimKeeps("RetroArch");
    TrimKeeps("Dolphin");
    hide Trim;
    assert |Lower("RetroArch")| == 9 && |Lower("Dolphin")| == 7;
  }

  lemma PlatformsAlike()
    ensures Trim("SNES") == "SNES" && Trim("snes") == "snes" && Trim("snes9x") != ""
    ensures Lower("SNES") == Lower("snes") && Folded("SNES") == Folded("snes")
  {
    TrimKeeps("SNES");
    TrimKeeps("snes");
    TrimKeeps("snes9x");
    hide Trim, Lower;
    assert Lower("SNES") == "snes" == Lower("snes");
  }

  /** One instance: RetroArch for `SNES`, then for `snes`, then Dolphin is deleted. */
  lemma SnesLosesItsCore()
    ensures var d := ExecuteAll(WITH_BOTH, PickedTwice("RetroArch", "SNES", "snes", ONE_CORE));
      && "snes" in d.defaultEmulators && d.defaultEmulators["snes"] == "RetroArch"
      && KeysLike(Deleted(d, "Dolphin").retroarchCores, "snes") == {}
  {
    NamesApart();
    PlatformsAlike();
    hide Trim, Lower, ExecuteAll, Deleted;
    assert WITH_BOTH.emulators[0] == RETROARCH && WITH_BOTH.emulators[1] == DOLPHIN;
    LookupAt(WITH_BOTH.emulators, "RetroArch", 0);
    assert TableInv(WITH_BOTH);
    RespellingLosesCore(WITH_BOTH, "RetroArch", "Dolphin", "SNES", "snes", ONE_CORE);
  }

  lemma TableHasDistinctKeys(c: Config)
    requires TableInv(c)
    ensures KeysDistinct(c.defaultEmulators)
  {}

  lemma DeleteLosesCore(d: Config, other: string, a: string, b: string)
    requires a != b && Lower(a) == Lower(b)
    requires KeysLike(d.defaultEmulators, b) == {b} && KeysLike(d.retroarchCores, a) == {a}
    requires b in d.defaultEmulators && Folded(d.defaultEmulators[b]) != Folded(other)
    ensures b in Deleted(d, other).defaultEmulators && KeysLike(Deleted(d, other).retroarchCores, b) == {}
  {
    hide Lower, Folded;
    assert a !in d.defaultEmulators by {
      assert a in d.defaultEmulators ==> a in KeysLike(d.defaultEmulators, b);
    }
    assert forall k | k in d.retroarchCores && Lower(k) == Lower(b) :: k in KeysLike(d.retroarchCores, a);
  }

  lemma FirstPickRecords(c: Config, name: string, a: string, profile: Profile)
    requires Supported(c, name, profile) && IsRetroArch(c, name, profile) && Trim(name) != ""
    requires KeysLike(c.retroarchCores, a) == {} && !HasCore(c.retroarchCores, a)
    requires profile.core(EntryByName(c.emulators, Trim(name)).value).Some?
    ensures var d := Execute(c, SetDefault(a, name, profile));
      && d.retroarchCores == c.retroarchCores[a := profile.core(EntryByName(c.emulators, Trim(name)).value).value]
      && d.emulators == c.emulators && KeysLike(d.retroarchCores, a) == {a}
  {
    hide Trim, Lower, EntryByName, HasCore;
    assert a !in c.retroarchCores by {
      assert a in c.retroarchCores ==> a in KeysLike(c.retroarchCores, a);
    }
  }

  lemma SecondPickRecordsNothing(c: Config, name: string, a: string, b: string, profile: Profile)
    requires Supported(c, name, profile) && IsRetroArch(c, name, profile) && Trim(name) != ""
    requires a in c.retroarchCores && Trim(c.retroarchCores[a]) != "" && Folded(a) == Folded(b) && Trim(a) != ""
    ensures Execute(c, SetDefault(b, name, profile))
         == c.(defaultEmulators := Upserted(c.defaultEmulators, b, Trim(name)))
  {
    assert Trim(b) != "" by {
      assert |Folded(a)| == |Trim(a)| && |Folded(b)| == |Trim(b)|;
    }
    hide Trim, Lower, EntryByName, Upserted;
    assert HasCore(c.retroarchCores, b);
  }
}
