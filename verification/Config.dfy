/** The stored configuration, as far as its writers and the emulator table need it. */
module Configs {
  import opened Texts

  /** `rest` stands for the path, the arguments and the source fields. */
  datatype EmulatorEntry = EmulatorEntry(name: string, rest: string)

  /** `extra` stands for every other key, unknown ones included. */
  datatype Config = Config(
    emulators: seq<EmulatorEntry>,
    defaultEmulators: map<string, string>,
    retroarchCores: map<string, string>,
    saveRetentionLimit: nat,
    retentionDefaultMigrated: bool,
    extra: string)

  const DEFAULT_SAVE_RETENTION_LIMIT: nat := 10
  const OLD_SAVE_RETENTION_LIMIT: nat := 3

  const DEFAULT_CONFIG: Config := Config([], map[], map[], DEFAULT_SAVE_RETENTION_LIMIT, true, "")

  /** How an emulator name is compared. */
  function Folded(name: string): string {
    Lower(Trim(name))
  }

  function NonBlank(emulators: seq<EmulatorEntry>): (r: seq<EmulatorEntry>)
    ensures forall i | 0 <= i < |r| :: Trim(r[i].name) != ""
    ensures (forall i | 0 <= i < |emulators| :: Trim(emulators[i].name) != "") ==> r == emulators
  {
    if emulators == [] then []
    else if Trim(emulators[0].name) == "" then NonBlank(emulators[1..])
    else [emulators[0]] + NonBlank(emulators[1..])
  }

  /** The filter is the one that keeps each entry that is not blank and drops each that is,
      one by one and in order. */
  lemma {:induction false} NonBlankMeans(before: seq<EmulatorEntry>, after: seq<EmulatorEntry>)
    ensures NonBlank(before + after) == NonBlank(before) + NonBlank(after)
    decreases |before|
  {
    hide Trim;
    if before == [] {
      assert before + after == after;
    } else {
      var rest := before[1..];
      assert (before + after)[1..] == rest + after && (before + after)[0] == before[0];
      NonBlankMeans(rest, after);
      AppendAssoc([before[0]], NonBlank(rest), NonBlank(after));
      hide NonBlank;
      NonBlankStep(before);
      NonBlankStep(before + after);
    }
  }

  lemma NonBlankStep(emulators: seq<EmulatorEntry>)
    requires emulators != []
    ensures NonBlank(emulators)
         == (if Trim(emulators[0].name) == "" then [] else [emulators[0]]) + NonBlank(emulators[1..])
  {}

  lemma NonBlankOne(e: EmulatorEntry)
    ensures NonBlank([e]) == if Trim(e.name) == "" then [] else [e]
  {
    NonBlankStep([e]);
  }

  function Migrated(c: Config): Config {
    if c.retentionDefaultMigrated then c
    else if c.saveRetentionLimit == OLD_SAVE_RETENTION_LIMIT then
      c.(saveRetentionLimit := DEFAULT_SAVE_RETENTION_LIMIT, retentionDefaultMigrated := true)
    else c.(retentionDefaultMigrated := true)
  }

  /** What a load makes of a parsed file. */
  function Normalise(c: Config): Config {
    Migrated(c.(emulators := NonBlank(c.emulators)))
  }

  /** Loading what a load produced changes nothing; the limit a load reports is the one
      stored, if and only if it is not an unmarked 3. */
  lemma NormaliseIsIdempotent(c: Config)
    ensures Normalise(Normalise(c)) == Normalise(c)
    ensures Normalise(c).saveRetentionLimit == c.saveRetentionLimit
       <==> c.retentionDefaultMigrated || c.saveRetentionLimit != OLD_SAVE_RETENTION_LIMIT
    ensures !c.retentionDefaultMigrated && c.saveRetentionLimit == 3 ==> Normalise(c).saveRetentionLimit == 10
    ensures Normalise(c).retentionDefaultMigrated
    ensures Normalise(c) == c.(emulators := NonBlank(c.emulators), retentionDefaultMigrated := true,
                               saveRetentionLimit := Normalise(c).saveRetentionLimit)
  {
    var names := NonBlank(c.emulators);
    assert NonBlank(names) == names;
  }
}
