/** Two-level counters: how many connections subscribe to each channel.
    Models library/channels_stat_impl.cpp. */
module ChannelsStat {
  import opened Messages

  type Stat = map<string, map<string, nat>>

  function Count(d: Stat, id: ChannelId): nat {
    if id.name in d && id.key in d[id.name] then d[id.name][id.key] else 0
  }

  /** No zero counter and no empty inner map is stored, and nothing under the empty name. */
  ghost predicate Tidy(d: Stat) {
    && "" !in d
    && (forall name <- d :: d[name] != map[])
    && (forall name <- d :: forall key <- d[name] :: d[name][key] > 0)
  }

  function Inc(d: Stat, id: ChannelId): Stat {
    if id.name == "" then d
    else if id.name !in d then d[id.name := map[id.key := 1]]
    else if id.key !in d[id.name] then d[id.name := d[id.name][id.key := 1]]
    else d[id.name := d[id.name][id.key := d[id.name][id.key] + 1]]
  }

  /** The three assertions in `dec`. */
  predicate DecAllowed(d: Stat, id: ChannelId) {
    id.name != "" ==> id.name in d && id.key in d[id.name] && d[id.name][id.key] > 0
  }

  function Dec(d: Stat, id: ChannelId): Stat
    requires DecAllowed(d, id)
  {
    if id.name == "" then d
    else if d[id.name][id.key] > 1 then d[id.name := d[id.name][id.key := d[id.name][id.key] - 1]]
    else if |d[id.name]| > 1 then d[id.name := d[id.name] - {id.key}]
    else d - {id.name}
  }

  class ChannelsStat {
    var data: Stat

    constructor ()
      ensures data == map[]
    {
      data := map[];
    }

    method Add(id: ChannelId)
      modifies this
      ensures data == Inc(old(data), id)
    {
      if id.name != "" {
        if id.name !in data {
          var cs: map<string, nat> := map[id.key := 1];
          data := data[id.name := cs];
        } else {
          var cs := data[id.name];
          if id.key !in cs {
            cs := cs[id.key := 1];
          } else {
            cs := cs[id.key := cs[id.key] + 1];
          }
          data := data[id.name := cs];
        }
      }
    }

    method Drop(id: ChannelId)
      requires DecAllowed(data, id)
      modifies this
      ensures data == Dec(old(data), id)
    {
      if id.name != "" {
        assert id.name in data;
        var cs := data[id.name];
        assert id.key in cs;
        var counter := cs[id.key];
        assert counter != 0;
        counter := counter - 1;
        cs := cs[id.key := counter];
        data := data[id.name := cs];
        if counter == 0 {
          cs := cs - {id.key};
          assert old(data)[id.name] - {id.key} == cs;
          SingleKey(old(data)[id.name], id.key);
          data := data[id.name := cs];
          if cs == map[] {
            data := data - {id.name};
          }
        }
      }
    }
  }

  lemma SingleKey(m: map<string, nat>, key: string)
    requires key in m
    ensures m - {key} == map[] <==> |m| == 1
  {
    var rest := m - {key};
    assert m.Keys == rest.Keys + {key};
    assert |m.Keys| == |rest.Keys| + 1;
    assert |rest.Keys| == 0 <==> rest.Keys == {};
  }

  lemma IncCounts(d: Stat, id: ChannelId)
    requires Tidy(d)
    ensures Tidy(Inc(d, id))
    ensures forall o: ChannelId :: o.name != "" ==> Count(Inc(d, id), o) == Count(d, o) + if o == id then 1 else 0
  {
    if id.name != "" {
      var cs := Inc(d, id)[id.name];
      assert id.key in cs;
      assert forall key <- cs :: cs[key] > 0;
    }
  }

  lemma DecCounts(d: Stat, id: ChannelId)
    requires Tidy(d) && DecAllowed(d, id)
    ensures Tidy(Dec(d, id))
    ensures forall o: ChannelId :: o.name != "" ==> Count(Dec(d, id), o) == Count(d, o) - if o == id then 1 else 0
  {
    if id.name != "" {
      var cs := d[id.name];
      SingleKey(cs, id.key);
      if cs[id.key] > 1 {
        assert id.key in Dec(d, id)[id.name];
      } else {
        assert forall key <- cs :: key != id.key ==> key in cs - {id.key};
      }
    }
  }

  /** The counters determine the stored maps. */
  lemma TidyUnique(d: Stat, e: Stat)
    requires Tidy(d) && Tidy(e)
    requires forall o: ChannelId :: Count(d, o) == Count(e, o)
    ensures d == e
  {
    TidyWithin(d, e);
    TidyWithin(e, d);
    forall name | name in d ensures d[name] == e[name] {
      forall key | key in d[name] ensures d[name][key] == e[name][key] {
        assert Count(d, ChannelId(name, key)) == Count(e, ChannelId(name, key));
      }
    }
  }

  lemma TidyWithin(d: Stat, e: Stat)
    requires Tidy(d) && Tidy(e)
    requires forall o: ChannelId :: Count(d, o) == Count(e, o)
    ensures forall name <- d :: name in e && d[name].Keys <= e[name].Keys
  {
    forall name, key | name in d && key in d[name] ensures name in e && key in e[name] {
      assert Count(e, ChannelId(name, key)) > 0;
    }
    forall name | name in d ensures name in e {
      var key :| key in d[name];
    }
  }

  /** A decrement takes back an increment, to the same stored maps. */
  lemma DecUndoesInc(d: Stat, id: ChannelId)
    requires Tidy(d)
    ensures DecAllowed(Inc(d, id), id) && Dec(Inc(d, id), id) == d
  {
    IncCounts(d, id);
    DecCounts(Inc(d, id), id);
    forall o: ChannelId ensures Count(Dec(Inc(d, id), id), o) == Count(d, o) {
      if o.name == "" {}
    }
    TidyUnique(Dec(Inc(d, id), id), d);
  }

  // ---- All channels of one connection ----

  function IncAll(d: Stat, ids: seq<ChannelId>): Stat {
    if ids == [] then d else Inc(IncAll(d, ids[..|ids| - 1]), ids[|ids| - 1])
  }

  /** None of the assertions fails while the decrements are done in order. */
  predicate DecAllAllowed(d: Stat, ids: seq<ChannelId>)
    decreases |ids|, 0
  {
    ids == [] ||
    (DecAllAllowed(d, ids[..|ids| - 1]) && DecAllowed(DecAll(d, ids[..|ids| - 1]), ids[|ids| - 1]))
  }

  function DecAll(d: Stat, ids: seq<ChannelId>): Stat
    requires DecAllAllowed(d, ids)
    decreases |ids|, 1
  {
    if ids == [] then d else Dec(DecAll(d, ids[..|ids| - 1]), ids[|ids| - 1])
  }

  ghost predicate Distinct<T(!new)>(s: seq<T>) {
    forall i, j :: 0 <= i < j < |s| ==> s[i] != s[j]
  }

  lemma {:induction false} IncAllCounts(d: Stat, ids: seq<ChannelId>)
    requires Tidy(d) && Distinct(ids)
    ensures Tidy(IncAll(d, ids))
    ensures forall o: ChannelId :: o.name != "" ==> Count(IncAll(d, ids), o) == Count(d, o) + if o in ids then 1 else 0
  {
    if ids != [] {
      var last := ids[|ids| - 1];
      IncAllCounts(d, ids[..|ids| - 1]);
      IncCounts(IncAll(d, ids[..|ids| - 1]), last);
      assert ids == ids[..|ids| - 1] + [last];
    }
  }

  /** Counters that are positive for all of the connection's channels can be decremented. */
  lemma {:induction false} DecAllCounts(d: Stat, ids: seq<ChannelId>)
    requires Tidy(d) && Distinct(ids) && forall id <- ids :: id.name != "" ==> Count(d, id) > 0
    ensures DecAllAllowed(d, ids) && Tidy(DecAll(d, ids))
    ensures forall o: ChannelId :: o.name != "" ==> Count(DecAll(d, ids), o) == Count(d, o) - if o in ids then 1 else 0
  {
    if ids != [] {
      var last := ids[|ids| - 1];
      DecAllCounts(d, ids[..|ids| - 1]);
      assert last !in ids[..|ids| - 1];
      DecCounts(DecAll(d, ids[..|ids| - 1]), last);
      assert ids == ids[..|ids| - 1] + [last];
    }
  }
}
