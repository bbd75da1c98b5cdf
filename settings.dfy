/**
 * The settings window: it shows the four settings with the intervals and the
 * long duration in whole minutes, and saves the values entered, converting
 * minutes back to seconds.
 */
module Settings {
  import opened Wrappers
  import opened Globals

  /**
   * Whole minutes in `seconds`, rounded down. Floor division by a positive
   * divisor agrees with Dafny's Euclidean `/`, also for negative settings.
   */
  function ToMinutes(seconds: int): (m: int)
    ensures 60 * m <= seconds < 60 * m + 60
  {
    seconds / 60
  }

  /** The factor field `k` is multiplied by when saved: all but the short duration are in minutes. */
  function Scale(k: nat): int
  {
    if k == 2 then 1 else 60
  }

  /** The values the window writes into its four entries. */
  function Shown(fields: seq<int>): (shown: seq<int>)
    requires |fields| == 4
    ensures |shown| == 4
    ensures forall k :: 0 <= k < 4 ==> Scale(k) * shown[k] <= fields[k] < Scale(k) * shown[k] + Scale(k)
  {
    [ToMinutes(fields[0]), ToMinutes(fields[1]), fields[2], ToMinutes(fields[3])]
  }

  /** The parse results of entries left as the window filled them in. */
  function Entered(values: seq<int>): (parsed: seq<Option<int>>)
    ensures |parsed| == |values|
    ensures forall k :: 0 <= k < |values| ==> parsed[k] == Some(values[k])
  {
    if values == [] then [] else [Some(values[0])] + Entered(values[1..])
  }

  /** The first entry from `k` on that fails to parse, or the number of entries. */
  function FirstFailureFrom(parsed: seq<Option<int>>, k: nat): (n: nat)
    requires k <= |parsed|
    ensures k <= n <= |parsed|
    ensures forall j :: k <= j < n ==> parsed[j].Some?
    ensures n < |parsed| ==> parsed[n].None?
    decreases |parsed| - k
  {
    if k == |parsed| || parsed[k].None? then k else FirstFailureFrom(parsed, k + 1)
  }

  function FirstFailure(parsed: seq<Option<int>>): nat
  {
    FirstFailureFrom(parsed, 0)
  }

  /**
   * The assignments from field `k` on, made one after the other until an
   * entry fails to parse: the fields assigned hold the parsed value times
   * their scale, and the rest keep their values.
   */
  function SaveFrom(fields: seq<int>, parsed: seq<Option<int>>, k: nat): (r: seq<int>)
    requires |fields| == |parsed| && k <= |parsed|
    ensures |r| == |fields|
    ensures forall j :: 0 <= j < |fields| ==>
      r[j] == if k <= j < FirstFailureFrom(parsed, k) then parsed[j].value * Scale(j) else fields[j]
    decreases |parsed| - k
  {
    if k == |parsed| || parsed[k].None? then fields
    else SaveFrom(fields[k := parsed[k].value * Scale(k)], parsed, k + 1)
  }

  /** The settings after a save of the parsed entries. */
  function Saved(fields: seq<int>, parsed: seq<Option<int>>): (r: seq<int>)
    requires |fields| == |parsed|
    ensures |r| == |fields|
    ensures forall j :: 0 <= j < |fields| ==>
      r[j] == if j < FirstFailure(parsed) then parsed[j].value * Scale(j) else fields[j]
  {
    SaveFrom(fields, parsed, 0)
  }

  /**
   * Saving what the window shows gives the settings back exactly when the
   * intervals and the long duration are whole minutes; the short duration
   * always comes back, and a setting that is not a whole minute comes back
   * rounded down to one.
   */
  lemma SaveShownRoundTrip(fields: seq<int>)
    requires |fields| == 4
    ensures Saved(fields, Entered(Shown(fields))) == fields <==>
            fields[0] % 60 == 0 && fields[1] % 60 == 0 && fields[3] % 60 == 0
    ensures Saved(fields, Entered(Shown(fields)))[2] == fields[2]
    ensures forall k :: 0 <= k < 4 ==> Saved(fields, Entered(Shown(fields)))[k] == fields[k] - fields[k] % Scale(k)
  {
    var parsed := Entered(Shown(fields));
    var r := Saved(fields, parsed);
    assert FirstFailure(parsed) == 4;
    forall k | 0 <= k < 4
      ensures r[k] == fields[k] - fields[k] % Scale(k)
    {
      assert r[k] == Shown(fields)[k] * Scale(k);
    }
    if fields[0] % 60 == 0 && fields[1] % 60 == 0 && fields[3] % 60 == 0 {
      assert r == fields;
    }
  }

  /**
   * A save whose entry `k` fails to parse: the fields before `k` already
   * hold the new values, field `k` and those after it keep the old ones.
   */
  lemma FailedSaveIsPartial(fields: seq<int>, parsed: seq<Option<int>>, k: nat)
    requires |fields| == |parsed| == 4 && k < 4
    requires forall j :: 0 <= j < k ==> parsed[j].Some?
    requires parsed[k].None?
    ensures forall j :: 0 <= j < k ==> Saved(fields, parsed)[j] == parsed[j].value * Scale(j)
    ensures Saved(fields, parsed)[k..] == fields[k..]
  {
    assert FirstFailure(parsed) == k;
  }

  class SettingsWindow {
    const shared: Shared
    /** The numbers written into the four entries. */
    var shown: seq<int>

    constructor (shared: Shared)
      ensures this.shared == shared
      ensures shown == Shown(shared.Fields())
    {
      this.shared := shared;
      shown := [];
      new;
      CreateWidgets();
    }

    /** Fills the entries from the current settings, in minutes where the label says so. */
    method CreateWidgets()
      modifies this
      ensures shown == Shown(shared.Fields())
    {
      shown := [shared.shortBreakInterval / 60, shared.longBreakInterval / 60, shared.shortBreakDuration,
                shared.longBreakDuration / 60];
    }

    /**
     * Saves the entries, given as the results of parsing their texts. The
     * four settings are assigned one after the other and the first entry that
     * does not parse stops the save with an error, leaving the assignments
     * already made in place.
     */
    method SaveSettings(parsed: seq<Option<int>>) returns (ok: bool)
      requires |parsed| == 4
      modifies shared
      ensures ok <==> FirstFailure(parsed) == 4
      ensures shared.Fields() == Saved(old(shared.Fields()), parsed)
      ensures shared.CurrentFlags() == old(shared.CurrentFlags())
    {
      ok := false;
      if parsed[0].None? { return; }
      shared.shortBreakInterval := parsed[0].value * 60;
      if parsed[1].None? { return; }
      shared.longBreakInterval := parsed[1].value * 60;
      if parsed[2].None? { return; }
      shared.shortBreakDuration := parsed[2].value;
      if parsed[3].None? { return; }
      shared.longBreakDuration := parsed[3].value * 60;
      ok := true;
    }
  }
}
