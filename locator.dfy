/** The ordered probe behind every generation's `findConfigPath`: the first
    candidate path that exists, or nothing. File existence is a set of paths. */
module Locator {
  import opened Common

  /** The first element of `candidates` that lies in `existing`. */
  function FirstExisting(candidates: seq<string>, existing: set<string>): (r: Option<string>)
    ensures r.None? <==> forall i :: 0 <= i < |candidates| ==> candidates[i] !in existing
    ensures r.Some? ==> r.value in existing && r.value in candidates
    ensures r.Some? ==> exists i :: 0 <= i < |candidates| && candidates[i] == r.value && FirstIn(candidates, existing, i)
  {
    if |candidates| == 0 then None
    else if candidates[0] in existing then
      assert FirstIn(candidates, existing, 0);
      Some(candidates[0])
    else
      var rest := FirstExisting(candidates[1..], existing);
      if rest.Some? then
        var i :| 0 <= i < |candidates[1..]| && candidates[1..][i] == rest.value && FirstIn(candidates[1..], existing, i);
        assert FirstIn(candidates, existing, i + 1);
        rest
      else
        assert forall i :: 1 <= i < |candidates| ==> candidates[i] == candidates[1..][i - 1];
        rest
  }

  /** `candidates[i]` exists and no earlier candidate does. */
  predicate FirstIn(candidates: seq<string>, existing: set<string>, i: int)
    requires 0 <= i < |candidates|
  {
    candidates[i] in existing && forall j :: 0 <= j < i ==> candidates[j] !in existing
  }

  // ---------------------------------------------------------------------------
  // The OpenClaw generations (OpenClawKit and OpenClawManager)

  /** The paths their `findConfigPath` probes, in order; `home` is the home
      directory. */
  function OpenClawCandidates(home: string): seq<string> {
    ["./openclaw.json",
     home + "/.openclaw/openclaw.json",
     home + "/.moltbot/openclaw.json",
     home + "/.moltbot/moltbot.json"]
  }

  /** The path `init()` falls back to when no candidate exists (and, in
      OpenClawManager, the user picks no file either). */
  function OpenClawDefault(home: string): string {
    home + "/.openclaw/openclaw.json"
  }

  /** `findConfigPath()`: its chain of existence checks is the ordered probe. */
  function FindOpenClawConfig(home: string, existing: set<string>): (r: Option<string>)
    ensures r == FirstExisting(OpenClawCandidates(home), existing)
  {
    var c := OpenClawCandidates(home);
    assert c[1..] == c[1..4] && c[1..4][1..] == c[2..4] && c[2..4][1..] == c[3..4] && c[3..4][1..] == [];
    assert FirstExisting(c[3..4], existing) == if c[3] in existing then Some(c[3]) else None;
    assert FirstExisting(c[2..4], existing)
        == if c[2] in existing then Some(c[2]) else FirstExisting(c[3..4], existing);
    assert FirstExisting(c[1..4], existing)
        == if c[1] in existing then Some(c[1]) else FirstExisting(c[2..4], existing);
    if "./openclaw.json" in existing then Some("./openclaw.json")
    else if home + "/.openclaw/openclaw.json" in existing then Some(home + "/.openclaw/openclaw.json")
    else if home + "/.moltbot/openclaw.json" in existing then Some(home + "/.moltbot/openclaw.json")
    else if home + "/.moltbot/moltbot.json" in existing then Some(home + "/.moltbot/moltbot.json")
    else None
  }

  // ---------------------------------------------------------------------------
  // The oldest generation (MoltbotManager)

  function MoltbotCandidates(home: string): seq<string> {
    ["./moltbot.json",
     home + "/moltbot/moltbot.json",
     home + "/.moltbot/moltbot.json"]
  }

  /** MoltbotManager's fallback is a fixed absolute path, not built from the
      home directory. */
  const MoltbotDefault: string := "/Users/tiger/.moltbot/moltbot.json"

  function FindMoltbotConfig(home: string, existing: set<string>): (r: Option<string>)
    ensures r == FirstExisting(MoltbotCandidates(home), existing)
  {
    var c := MoltbotCandidates(home);
    assert c[1..] == c[1..3] && c[1..3][1..] == c[2..3] && c[2..3][1..] == [];
    assert FirstExisting(c[2..3], existing) == if c[2] in existing then Some(c[2]) else None;
    assert FirstExisting(c[1..3], existing)
        == if c[1] in existing then Some(c[1]) else FirstExisting(c[2..3], existing);
    if "./moltbot.json" in existing then Some("./moltbot.json")
    else if home + "/moltbot/moltbot.json" in existing then Some(home + "/moltbot/moltbot.json")
    else if home + "/.moltbot/moltbot.json" in existing then Some(home + "/.moltbot/moltbot.json")
    else None
  }

  // ---------------------------------------------------------------------------
  // What the probes promise

  /** With no candidate on disk the probe reports nothing. */
  lemma NothingFoundWhenNoCandidateExists(home: string, existing: set<string>)
    requires forall p :: p in OpenClawCandidates(home) ==> p !in existing
    ensures FindOpenClawConfig(home, existing) == None
  {
  }

  /** A candidate is reported when it exists and no earlier one does. */
  lemma FindPicksFirst(candidates: seq<string>, existing: set<string>, i: int)
    requires 0 <= i < |candidates| && FirstIn(candidates, existing, i)
    ensures FirstExisting(candidates, existing) == Some(candidates[i])
  {
    var r := FirstExisting(candidates, existing);
    var j :| 0 <= j < |candidates| && candidates[j] == r.value && FirstIn(candidates, existing, j);
    assert j == i;
  }

  /** The current working directory always wins: a local file is picked
      whatever the home directory holds. */
  lemma WorkingDirectoryFirst(home: string, existing: set<string>)
    ensures "./openclaw.json" in existing ==> FindOpenClawConfig(home, existing) == Some("./openclaw.json")
    ensures "./moltbot.json" in existing ==> FindMoltbotConfig(home, existing) == Some("./moltbot.json")
  {
  }
}
