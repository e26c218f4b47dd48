/** The per-filter table of granular overrides: each path maps to the
    resolved level of the last override naming it. */
module Granulars {
  import opened ConfigTypes

  /** The paths named by the overrides. */
  function Paths(gs: seq<JSONGranular>): set<string> {
    set j | 0 <= j < |gs| :: gs[j].path
  }

  /** The override table: the overrides applied in order, so a later
      duplicate path replaces an earlier one. */
  function GranularLevels(gs: seq<JSONGranular>, getLevel: string -> Level): (m: map<string, Level>)
    ensures m.Keys == Paths(gs)
  {
    if gs == [] then map[]
    else
      var init := gs[..|gs| - 1];
      var m := GranularLevels(init, getLevel);
      assert Paths(gs) == Paths(init) + {gs[|gs| - 1].path} by {
        forall p | p in Paths(gs) ensures p in Paths(init) + {gs[|gs| - 1].path} {
          var j :| 0 <= j < |gs| && gs[j].path == p;
          if j < |gs| - 1 { assert init[j].path == p; }
        }
        forall p | p in Paths(init) ensures p in Paths(gs) {
          var j :| 0 <= j < |init| && init[j].path == p;
          assert gs[j].path == p;
        }
      }
      m[gs[|gs| - 1].path := getLevel(gs[|gs| - 1].level)]
  }

  /** Each path maps to the level of the last override that names it. */
  lemma {:induction false} GranularLastWins(gs: seq<JSONGranular>, getLevel: string -> Level, i: int)
    requires 0 <= i < |gs|
    requires forall j :: i < j < |gs| ==> gs[j].path != gs[i].path
    ensures gs[i].path in GranularLevels(gs, getLevel)
    ensures GranularLevels(gs, getLevel)[gs[i].path] == getLevel(gs[i].level)
  {
    if i < |gs| - 1 {
      GranularLastWins(gs[..|gs| - 1], getLevel, i);
    }
  }

  /** The loop of the loader that fills the `granulars` map in place. */
  method BuildGranulars(gs: seq<JSONGranular>, getLevel: string -> Level) returns (granulars: map<string, Level>)
    ensures granulars == GranularLevels(gs, getLevel)
    ensures granulars.Keys == Paths(gs)
  {
    granulars := map[];
    for i := 0 to |gs|
      invariant granulars == GranularLevels(gs[..i], getLevel)
    {
      assert gs[..i + 1][..i] == gs[..i];
      granulars := granulars[gs[i].path := getLevel(gs[i].level)];
    }
    assert gs[..|gs|] == gs;
  }
}
