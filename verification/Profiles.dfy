/** The collect-profiles job: a run lists the profiles it stored earlier, deletes all but the newest of
    each name, stores new ones, and deletes the old newest ones it replaced. Every call to the cluster
    can fail, and a call that fails may still have taken effect. */
module Profiles {
  import opened Declcfg
  import opened Picking

  /** A stored profile; `uid` is the identity the cluster gave it. */
  datatype ConfigMap = ConfigMap(uid: nat, generateName: string, created: int)

  type Stored = map<nat, ConfigMap>

  ghost predicate Keyed(m: Stored) {
    forall u :: u in m ==> m[u].uid == u
  }

  /** The uids stored under a name. */
  ghost function Named(m: Stored, name: string): set<nat> {
    set u | u in m && m[u].generateName == name
  }

  ghost function Count(m: Stored, name: string): nat {
    |Named(m, name)|
  }

  // ----- Newest and expired -----

  /** The items under a name in `items` that are as new as any, and the first of those. */
  ghost predicate IsNewest(items: seq<ConfigMap>, i: nat) {
    && i < |items|
    && (forall j :: 0 <= j < |items| && items[j].generateName == items[i].generateName ==>
          items[j].created <= items[i].created)
    && (forall j :: 0 <= j < i && items[j].generateName == items[i].generateName ==>
          items[j].created < items[i].created)
  }

  /** `newest` holds the newest of `items` under each of their names. */
  ghost predicate HoldsNewest(items: seq<ConfigMap>, newest: map<string, ConfigMap>) {
    && (forall j :: 0 <= j < |items| ==> items[j].generateName in newest)
    && (forall name :: name in newest ==> newest[name].generateName == name && HasNewest(items, newest[name]))
  }

  ghost predicate HasNewest(items: seq<ConfigMap>, cm: ConfigMap) {
    exists i: nat :: IsNewest(items, i) && items[i] == cm
  }

  /** How often a map of newest profiles holds `cm`. */
  function Held(newest: map<string, ConfigMap>, cm: ConfigMap): nat {
    if cm.generateName in newest && newest[cm.generateName] == cm then 1 else 0
  }

  lemma NewestKept(items: seq<ConfigMap>, cm: ConfigMap, kept: ConfigMap)
    requires HasNewest(items, kept) && (cm.generateName == kept.generateName ==> cm.created <= kept.created)
    ensures HasNewest(items + [cm], kept)
  {
    var i: nat :| IsNewest(items, i) && items[i] == kept;
    assert IsNewest(items + [cm], i) && (items + [cm])[i] == kept;
  }

  lemma NewestAdded(items: seq<ConfigMap>, newest: map<string, ConfigMap>, cm: ConfigMap)
    requires HoldsNewest(items, newest)
    requires cm.generateName in newest ==> newest[cm.generateName].created < cm.created
    ensures HasNewest(items + [cm], cm)
  {
    var longer := items + [cm];
    forall j | 0 <= j < |items| && items[j].generateName == cm.generateName
      ensures items[j].created < cm.created
    {
      var i: nat :| IsNewest(items, i) && items[i] == newest[cm.generateName];
    }
    assert IsNewest(longer, |items|) && longer[|items|] == cm;
  }

  lemma HoldsNewestNext(items: seq<ConfigMap>, newest: map<string, ConfigMap>, cm: ConfigMap)
    requires HoldsNewest(items, newest)
    ensures HoldsNewest(items + [cm],
              if cm.generateName in newest && cm.created <= newest[cm.generateName].created then newest
              else newest[cm.generateName := cm])
  {
    forall name | name in newest && (name == cm.generateName ==> cm.created <= newest[name].created)
      ensures HasNewest(items + [cm], newest[name])
    {
      NewestKept(items, cm, newest[name]);
    }
    if !(cm.generateName in newest && cm.created <= newest[cm.generateName].created) {
      NewestAdded(items, newest, cm);
    }
  }

  /** Every item is held as newest or expired, as often as it was listed. */
  ghost predicate Conserves(items: seq<ConfigMap>, newest: map<string, ConfigMap>, expired: seq<ConfigMap>) {
    forall x :: multiset(items)[x] == multiset(expired)[x] + Held(newest, x)
  }

  lemma ConservesNext(items: seq<ConfigMap>, newest: map<string, ConfigMap>, expired: seq<ConfigMap>, cm: ConfigMap)
    requires Conserves(items, newest, expired)
    ensures cm.generateName !in newest ==> Conserves(items + [cm], newest[cm.generateName := cm], expired)
    ensures Conserves(items + [cm], newest, expired + [cm])
    ensures cm.generateName in newest && newest[cm.generateName].generateName == cm.generateName ==>
              Conserves(items + [cm], newest[cm.generateName := cm], expired + [newest[cm.generateName]])
  {
  }

  /** Splits the listed profiles: one newest per name, the first listed of the latest ones, and the rest
      expired. Nothing is lost or duplicated, whatever order the map of newest ones is ranged over in. */
  method SeparateNewestAndExpired(items: seq<ConfigMap>) returns (newestCMs: seq<ConfigMap>, expiredCMs: seq<ConfigMap>)
    ensures multiset(newestCMs) + multiset(expiredCMs) == multiset(items)
    ensures forall k :: 0 <= k < |newestCMs| ==> HasNewest(items, newestCMs[k])
    ensures forall j :: 0 <= j < |items| ==> HasName(newestCMs, items[j].generateName)
    ensures forall j, k :: 0 <= j < k < |newestCMs| ==> newestCMs[j].generateName != newestCMs[k].generateName
  {
    var newest: map<string, ConfigMap>;
    newest, expiredCMs := GroupByName(items);
    newestCMs := RangeValues(newest);
    forall j | 0 <= j < |items|
      ensures HasName(newestCMs, items[j].generateName)
    {
      assert newest[items[j].generateName] in multiset(newestCMs);
    }
  }

  method GroupByName(items: seq<ConfigMap>) returns (newest: map<string, ConfigMap>, expiredCMs: seq<ConfigMap>)
    ensures HoldsNewest(items, newest) && Conserves(items, newest, expiredCMs)
  {
    newest, expiredCMs := map[], [];
    for i := 0 to |items|
      invariant HoldsNewest(items[..i], newest)
      invariant Conserves(items[..i], newest, expiredCMs)
    {
      var cm := items[i];
      assert items[..i + 1] == items[..i] + [cm];
      HoldsNewestNext(items[..i], newest, cm);
      ConservesNext(items[..i], newest, expiredCMs, cm);
      if cm.generateName !in newest {
        newest := newest[cm.generateName := cm];
      } else {
        if cm.created > newest[cm.generateName].created {
          newest, cm := newest[cm.generateName := cm], newest[cm.generateName];
        }
        expiredCMs := expiredCMs + [cm];
      }
    }
    assert items[..|items|] == items;
  }

  /** Ranges over a map of profiles by name, in any order. */
  method RangeValues(m: map<string, ConfigMap>) returns (vs: seq<ConfigMap>)
    requires forall name :: name in m ==> m[name].generateName == name
    ensures forall x :: multiset(vs)[x] == Held(m, x)
    ensures forall k :: 0 <= k < |vs| ==> vs[k].generateName in m && m[vs[k].generateName] == vs[k]
    ensures forall j, k :: 0 <= j < k < |vs| ==> vs[j].generateName != vs[k].generateName
  {
    vs := [];
    var left := m.Keys;
    while left != {}
      invariant left <= m.Keys
      invariant forall x :: multiset(vs)[x] == if x.generateName in left then 0 else Held(m, x)
      invariant forall k :: 0 <= k < |vs| ==>
                  vs[k].generateName in m && vs[k].generateName !in left && m[vs[k].generateName] == vs[k]
      invariant forall j, k :: 0 <= j < k < |vs| ==> vs[j].generateName != vs[k].generateName
      decreases |left|
    {
      var name :| name in left;
      vs := vs + [m[name]];
      left := left - {name};
    }
  }

  // ----- The cluster -----

  /** A call that a run makes, and whether it was reported as a success. */
  datatype Call =
    | ListCall(ok: bool)
    | DeleteCall(uid: nat, ok: bool)
    | CertCall(ok: bool)
    | FetchCall(name: string, ok: bool)
    | CreateCall(name: string, ok: bool)

  /** The profiles in the job's namespace. `history` is the content at the start and after every call made so far:
      wherever the job stops, what it leaves behind is one of these. `confirmed` are the uids of the profiles
      whose creation was reported as a success. `calls` are the calls made so far, with those to the serving
      certificate and to the profiled endpoints. */
  class Cluster {
    var live: Stored
    var next: nat
    ghost var history: seq<Stored>
    ghost var confirmed: set<nat>
    ghost var calls: seq<Call>

    ghost predicate Valid()
      reads this
    {
      && Keyed(live) && (forall u :: u in live ==> u < next) && (forall u :: u in confirmed ==> u < next)
      && |history| > 0 && history[|history| - 1] == live
    }

    constructor (live: Stored, next: nat)
      requires Keyed(live) && forall u :: u in live ==> u < next
      ensures Valid() && this.live == live && this.next == next && history == [live] && confirmed == {}
      ensures calls == []
    {
      this.live, this.next, history, confirmed, calls := live, next, [live], {}, [];
    }

    method List() returns (ok: bool, items: seq<ConfigMap>)
      requires Valid()
      modifies this`calls
      ensures Valid() && calls == old(calls) + [ListCall(ok)]
      ensures ok ==> Lists(items, live)
    {
      ok := *;
      calls := calls + [ListCall(ok)];
      items := [];
      var left := live.Keys;
      while left != {}
        invariant left <= live.Keys
        invariant forall j :: 0 <= j < |items| ==>
                    items[j].uid in live && items[j].uid !in left && live[items[j].uid] == items[j]
        invariant forall j, k :: 0 <= j < k < |items| ==> items[j].uid != items[k].uid
        invariant forall u :: u in live && u !in left ==> live[u] in items
        decreases |left|
      {
        var u :| u in left;
        items := items + [live[u]];
        left := left - {u};
      }
    }

    method Delete(cm: ConfigMap) returns (ok: bool)
      requires Valid()
      modifies this
      ensures Valid() && next == old(next) && history == old(history) + [live] && confirmed == old(confirmed)
      ensures calls == old(calls) + [DeleteCall(cm.uid, ok)]
      ensures live == old(live) || live == old(live) - {cm.uid}
      ensures ok ==> live == old(live) - {cm.uid}
    {
      ok := *;
      if cm.uid !in live {
        ok := false;
      }
      var effective := *;
      if ok || effective {
        live := live - {cm.uid};
      }
      history, calls := history + [live], calls + [DeleteCall(cm.uid, ok)];
    }

    /** Checks the serving certificate. */
    method VerifyCert() returns (ok: bool)
      requires Valid()
      modifies this`calls
      ensures Valid() && calls == old(calls) + [CertCall(ok)]
    {
      ok := *;
      calls := calls + [CertCall(ok)];
    }

    /** Requests a profile from the endpoint of an argument. */
    method Fetch(name: string) returns (ok: bool)
      requires Valid()
      modifies this`calls
      ensures Valid() && calls == old(calls) + [FetchCall(name, ok)]
    {
      ok := *;
      calls := calls + [FetchCall(name, ok)];
    }

    /** `made` is what the call added, if it took effect. */
    method Create(name: string) returns (ok: bool, ghost made: Option<ConfigMap>)
      requires Valid()
      modifies this
      ensures Valid() && next >= old(next) && history == old(history) + [live]
      ensures calls == old(calls) + [CreateCall(name, ok)]
      ensures made.None? ==> live == old(live)
      ensures made.Some? ==> made.value.uid == old(next) && made.value.generateName == name
                             && live == old(live)[old(next) := made.value] && next > old(next)
      ensures ok ==> made.Some?
      ensures confirmed == old(confirmed) + if ok then {old(next)} else {}
    {
      ok := *;
      made := None;
      var effective := *;
      if ok || effective {
        var now: int := *;
        var cm := ConfigMap(next, name, now);
        made := Some(cm);
        live := live[next := cm];
        confirmed := confirmed + if ok then {next} else {};
        next := next + 1;
      }
      history, calls := history + [live], calls + [CreateCall(name, ok)];
    }
  }

  /** Each stored profile is listed once. */
  ghost predicate Lists(items: seq<ConfigMap>, live: Stored) {
    && (forall j :: 0 <= j < |items| ==> items[j].uid in live && live[items[j].uid] == items[j])
    && (forall j, k :: 0 <= j < k < |items| ==> items[j].uid != items[k].uid)
    && (forall u :: u in live ==> live[u] in items)
  }

  ghost function Uids(cms: seq<ConfigMap>): set<nat> {
    set k | 0 <= k < |cms| :: cms[k].uid
  }

  /** The profiles listed from `start` are `newest` and `expired`, with one newest under each name. */
  ghost predicate Separated(start: Stored, newest: seq<ConfigMap>, expired: seq<ConfigMap>) {
    && (forall k :: 0 <= k < |newest| ==> newest[k].uid in start && start[newest[k].uid] == newest[k])
    && (forall k :: 0 <= k < |expired| ==> expired[k].uid in start && start[expired[k].uid] == expired[k])
    && Uids(newest) + Uids(expired) == start.Keys
    && Uids(newest) !! Uids(expired)
    && (forall j, k :: 0 <= j < k < |newest| ==> newest[j].generateName != newest[k].generateName)
    && (forall u :: u in start ==> HasName(newest, start[u].generateName))
  }

  ghost predicate HasName(cms: seq<ConfigMap>, name: string) {
    exists k :: 0 <= k < |cms| && cms[k].generateName == name
  }

  lemma {:induction false} SeenOnce(items: seq<ConfigMap>, x: ConfigMap)
    requires forall j, k :: 0 <= j < k < |items| ==> items[j].uid != items[k].uid
    ensures multiset(items)[x] <= 1
  {
    if |items| != 0 {
      var n := |items| - 1;
      SeenOnce(items[..n], x);
      assert items == items[..n] + [items[n]];
      if items[n] == x {
        assert x !in items[..n];
        assert multiset(items[..n])[x] == 0;
      }
    }
  }

  lemma ListedIsSeparated(start: Stored, items: seq<ConfigMap>, newest: seq<ConfigMap>, expired: seq<ConfigMap>)
    requires Keyed(start) && Lists(items, start) && multiset(newest) + multiset(expired) == multiset(items)
    requires forall j, k :: 0 <= j < k < |newest| ==> newest[j].generateName != newest[k].generateName
    requires forall j :: 0 <= j < |items| ==> HasName(newest, items[j].generateName)
    ensures Separated(start, newest, expired)
  {
    OnlyListed(start, items, newest, expired);
    AllSeparated(start, items, newest, expired);
    SeparatedApart(start, items, newest, expired);
    forall u | u in start
      ensures HasName(newest, start[u].generateName)
    {
      assert start[u] in items;
    }
  }

  lemma OnlyListed(start: Stored, items: seq<ConfigMap>, newest: seq<ConfigMap>, expired: seq<ConfigMap>)
    requires Lists(items, start) && multiset(newest) + multiset(expired) == multiset(items)
    ensures forall k :: 0 <= k < |newest| ==> newest[k].uid in start && start[newest[k].uid] == newest[k]
    ensures forall k :: 0 <= k < |expired| ==> expired[k].uid in start && start[expired[k].uid] == expired[k]
    ensures Uids(newest) + Uids(expired) <= start.Keys
  {
    forall cm | cm in newest || cm in expired
      ensures cm.uid in start && start[cm.uid] == cm
    {
      assert cm in multiset(newest) || cm in multiset(expired);
      assert cm in multiset(items);
    }
  }

  lemma AllSeparated(start: Stored, items: seq<ConfigMap>, newest: seq<ConfigMap>, expired: seq<ConfigMap>)
    requires Keyed(start) && Lists(items, start) && multiset(newest) + multiset(expired) == multiset(items)
    ensures start.Keys <= Uids(newest) + Uids(expired)
  {
    forall u | u in start.Keys
      ensures u in Uids(newest) + Uids(expired)
    {
      assert start[u] in multiset(newest) + multiset(expired);
    }
  }

  lemma SeparatedApart(start: Stored, items: seq<ConfigMap>, newest: seq<ConfigMap>, expired: seq<ConfigMap>)
    requires Keyed(start) && Lists(items, start) && multiset(newest) + multiset(expired) == multiset(items)
    ensures Uids(newest) !! Uids(expired)
  {
    forall j, k | 0 <= j < |newest| && 0 <= k < |expired|
      ensures newest[j].uid != expired[k].uid
    {
      assert newest[j] in multiset(newest) && expired[k] in multiset(expired);
      assert newest[j] in multiset(items) && expired[k] in multiset(items);
      SeenOnce(items, newest[j]);
      assert newest[j] == expired[k] ==> multiset(items)[newest[j]] >= 2;
    }
  }

  // ----- The three loops of a run -----

  /** `live` is `start` without some of `doomed`. */
  ghost predicate Trimmed(start: Stored, doomed: set<nat>, live: Stored) {
    live.Keys <= start.Keys && start.Keys - live.Keys <= doomed && live == start - (start.Keys - live.Keys)
  }

  ghost predicate AllTrimmed(start: Stored, doomed: set<nat>, history: seq<Stored>, from: nat) {
    from <= |history| && forall k :: from <= k < |history| ==> Trimmed(start, doomed, history[k])
  }

  lemma TrimmedMore(start: Stored, doomed: set<nat>, live: Stored, live': Stored, u: nat)
    requires Trimmed(start, doomed, live) && u in doomed && (live' == live || live' == live - {u})
    ensures Trimmed(start, doomed, live')
  {
    assert start.Keys - live'.Keys <= (start.Keys - live.Keys) + {u};
    assert live' == start - (start.Keys - live'.Keys);
  }

  ghost predicate AllOk(calls: seq<Call>) {
    forall k :: 0 <= k < |calls| ==> calls[k].ok
  }

  lemma AllOkJoin(a: seq<Call>, b: seq<Call>)
    ensures AllOk(a + b) <==> AllOk(a) && AllOk(b)
  {
    assert forall k :: 0 <= k < |a| ==> (a + b)[k] == a[k];
    assert forall k :: 0 <= k < |b| ==> (a + b)[|a| + k] == b[k];
  }

  lemma AllOkNext(calls: seq<Call>, call: Call)
    ensures AllOk(calls + [call]) <==> AllOk(calls) && call.ok
  {
    AllOkJoin(calls, [call]);
    assert AllOk([call]) <==> [call][0].ok;
  }

  lemma AddCalls(a: seq<Call>, b: seq<Call>, c: seq<Call>)
    ensures a + b + c == a + (b + c)
  {
  }

  lemma JoinCalls(a: seq<Call>, b: seq<Call>, c: seq<Call>, d: seq<Call>, e: seq<Call>)
    ensures a + b + c + d + e == a + (b + c + d + e)
  {
  }

  /** The calls delete `cms`, one after the other. */
  ghost predicate Deletes(cms: seq<ConfigMap>, calls: seq<Call>) {
    |calls| == |cms| && forall k :: 0 <= k < |cms| ==> calls[k].DeleteCall? && calls[k].uid == cms[k].uid
  }

  lemma AllTrimmedMore(start: Stored, doomed: set<nat>, history: seq<Stored>, from: nat, history': seq<Stored>,
                       live: Stored)
    requires AllTrimmed(start, doomed, history, from) && Trimmed(start, doomed, live)
    requires history <= history' <= history + [live]
    ensures AllTrimmed(start, doomed, history', from)
  {
    forall k | from <= k < |history'|
      ensures Trimmed(start, doomed, history'[k])
    {
      assert history'[k] == (history + [live])[k];
    }
  }

  /** Tries to delete all expired profiles. */
  method DeleteExpired(cluster: Cluster, expired: seq<ConfigMap>) returns (ok: bool, ghost calls: seq<Call>)
    requires cluster.Valid()
    modifies cluster
    ensures cluster.Valid() && cluster.next == old(cluster.next) && cluster.confirmed == old(cluster.confirmed)
    ensures cluster.calls == old(cluster.calls) + calls && Deletes(expired, calls) && (ok <==> AllOk(calls))
    ensures ok ==> cluster.live == old(cluster.live) - Uids(expired)
    ensures Trimmed(old(cluster.live), Uids(expired), cluster.live)
    ensures old(cluster.history) <= cluster.history
    ensures AllTrimmed(old(cluster.live), Uids(expired), cluster.history, |old(cluster.history)|)
  {
    ok, calls := true, [];
    for i := 0 to |expired|
      invariant cluster.Valid() && cluster.next == old(cluster.next) && cluster.confirmed == old(cluster.confirmed)
      invariant cluster.calls == old(cluster.calls) + calls && Deletes(expired[..i], calls) && (ok <==> AllOk(calls))
      invariant ok ==> cluster.live == old(cluster.live) - Uids(expired[..i])
      invariant Trimmed(old(cluster.live), Uids(expired), cluster.live)
      invariant old(cluster.history) <= cluster.history
      invariant AllTrimmed(old(cluster.live), Uids(expired), cluster.history, |old(cluster.history)|)
    {
      ghost var before := cluster.live;
      UidsNext(expired, i);
      var deleted := cluster.Delete(expired[i]);
      AddCalls(old(cluster.calls), calls, [DeleteCall(expired[i].uid, deleted)]);
      AllOkNext(calls, DeleteCall(expired[i].uid, deleted));
      ok, calls := ok && deleted, calls + [DeleteCall(expired[i].uid, deleted)];
      TrimmedMore(old(cluster.live), Uids(expired), before, cluster.live, expired[i].uid);
    }
    assert expired[..|expired|] == expired;
  }

  lemma UidsNext(cms: seq<ConfigMap>, i: nat)
    requires i < |cms|
    ensures Uids(cms[..i + 1]) == Uids(cms[..i]) + {cms[i].uid}
    ensures cms[i].uid in Uids(cms)
  {
    forall u | u in Uids(cms[..i])
      ensures u in Uids(cms[..i + 1])
    {
      var k :| 0 <= k < i && cms[k].uid == u;
      assert cms[..i + 1][k].uid == u;
    }
    assert cms[..i + 1][i].uid == cms[i].uid;
  }

  /** How many arguments name `name`. */
  function Mentions(names: seq<string>, name: string): nat {
    if |names| == 0 then 0
    else Mentions(names[..|names| - 1], name) + if names[|names| - 1] == name then 1 else 0
  }

  lemma {:induction false} MentionsPrefix(names: seq<string>, i: nat, name: string)
    requires i <= |names|
    ensures Mentions(names[..i], name) <= Mentions(names, name)
    decreases |names| - i
  {
    if i == |names| {
      assert names[..i] == names;
    } else {
      assert names[..i + 1][..i] == names[..i];
      MentionsPrefix(names, i + 1, name);
    }
  }

  /** `live` is `base` and, under new uids, at most one profile for each time a name is in `names`. */
  ghost predicate Extends(base: Stored, next: nat, names: seq<string>, live: Stored) {
    && base.Keys <= live.Keys
    && (forall u :: u in base ==> live[u] == base[u])
    && (forall u :: u in live && u !in base ==> u >= next)
    && (forall name: string :: Count(live, name) <= Count(base, name) + Mentions(names, name))
  }

  ghost predicate AllExtend(base: Stored, next: nat, names: seq<string>, history: seq<Stored>, from: nat) {
    from <= |history| && forall k :: from <= k < |history| ==> Extends(base, next, names, history[k])
  }

  lemma AllExtendMore(base: Stored, next: nat, names: seq<string>, history: seq<Stored>, from: nat,
                      history': seq<Stored>, live: Stored)
    requires AllExtend(base, next, names, history, from) && Extends(base, next, names, live)
    requires history <= history' <= history + [live]
    ensures AllExtend(base, next, names, history', from)
  {
    forall k | from <= k < |history'|
      ensures Extends(base, next, names, history'[k])
    {
      assert history'[k] == (history + [live])[k];
    }
  }

  /** A profile of name `name` is in `live` and not in `base`. */
  ghost predicate Made(base: Stored, live: Stored, name: string) {
    exists u :: u in live && u !in base && live[u].generateName == name
  }

  lemma CountPut(m: Stored, cm: ConfigMap, name: string)
    requires cm.uid !in m
    ensures Count(m[cm.uid := cm], name) == Count(m, name) + if cm.generateName == name then 1 else 0
  {
    var m' := m[cm.uid := cm];
    if cm.generateName == name {
      assert Named(m', name) == Named(m, name) + {cm.uid};
    } else {
      assert Named(m', name) == Named(m, name);
    }
  }

  lemma ExtendsMore(base: Stored, next: nat, names: seq<string>, i: nat, live: Stored, cm: Option<ConfigMap>)
    requires i < |names| && Extends(base, next, names[..i], live)
    requires cm.Some? ==>
          cm.value.uid !in live && cm.value.uid !in base && cm.value.uid >= next && cm.value.generateName == names[i]
    ensures var live' := if cm.Some? then live[cm.value.uid := cm.value] else live;
            Extends(base, next, names[..i + 1], live') && Extends(base, next, names, live')
  {
    var live' := if cm.Some? then live[cm.value.uid := cm.value] else live;
    assert names[..i + 1][..i] == names[..i];
    forall name: string
      ensures Count(live', name) <= Count(base, name) + Mentions(names[..i + 1], name)
      ensures Count(live', name) <= Count(base, name) + Mentions(names, name)
    {
      if cm.Some? {
        CountPut(live, cm.value, name);
      }
      MentionsPrefix(names, i + 1, name);
    }
  }

  /** A profile of name `name` is in `live` under one of `uids`. */
  ghost predicate Confirmed(live: Stored, uids: set<nat>, name: string) {
    exists u :: u in uids && u in live && live[u].generateName == name
  }

  /** `created` are the names of the profiles confirmed since `base`, which are `uids`. */
  ghost predicate Tracks(base: Stored, live: Stored, uids: set<nat>, created: set<string>) {
    && uids <= live.Keys && uids !! base.Keys
    && forall name: string :: name in created <==> Confirmed(live, uids, name)
  }

  lemma TracksMore(base: Stored, live: Stored, uids: set<nat>, created: set<string>, cm: ConfigMap)
    requires Tracks(base, live, uids, created) && cm.uid !in live && cm.uid !in base
    ensures Tracks(base, live[cm.uid := cm], uids, created)
    ensures Tracks(base, live[cm.uid := cm], uids + {cm.uid}, created + {cm.generateName})
  {
    var live' := live[cm.uid := cm];
    assert live'[cm.uid].generateName == cm.generateName;
    forall name: string
      ensures name in created <==> Confirmed(live', uids, name)
      ensures name in created + {cm.generateName} <==> Confirmed(live', uids + {cm.uid}, name)
    {
      if Confirmed(live, uids, name) {
        var u :| u in uids && u in live && live[u].generateName == name;
        assert live'[u] == live[u];
      }
    }
  }

  /** A name that was confirmed has a profile made by this run. */
  lemma TrackedIsMade(base: Stored, live: Stored, uids: set<nat>, created: set<string>, name: string)
    requires Tracks(base, live, uids, created) && name in created
    ensures Made(base, live, name)
  {
    assert Confirmed(live, uids, name);
    var u :| u in uids && u in live && live[u].generateName == name;
    assert u !in base;
  }

  // ----- The calls for the arguments -----

  /** For each name, in order, its endpoint is asked, and if that succeeds a profile is stored. */
  ghost predicate Scrapes(names: seq<string>, calls: seq<Call>)
    decreases |names|, 0
  {
    if |names| == 0 then calls == []
    else ScrapesLast(names[..|names| - 1], names[|names| - 1], calls)
  }

  ghost predicate ScrapesLast(names: seq<string>, name: string, calls: seq<Call>)
    decreases |names|, 1
  {
    var m := |calls|;
    || (m >= 1 && calls[m - 1] == FetchCall(name, false) && Scrapes(names, calls[..m - 1]))
    || (m >= 2 && calls[m - 2] == FetchCall(name, true) && calls[m - 1].CreateCall? && calls[m - 1].name == name
        && Scrapes(names, calls[..m - 2]))
  }

  lemma ScrapesNext(names: seq<string>, i: nat, calls: seq<Call>, more: seq<Call>, stored: bool)
    requires i < |names| && Scrapes(names[..i], calls)
    requires more == [FetchCall(names[i], false)] || more == [FetchCall(names[i], true), CreateCall(names[i], stored)]
    ensures Scrapes(names[..i + 1], calls + more)
  {
    assert names[..i + 1][..i] == names[..i];
    var m := |calls + more|;
    assert (calls + more)[..m - |more|] == calls;
  }

  /** How many of `uids` are stored under a name. */
  ghost function CountOf(live: Stored, uids: set<nat>, name: string): nat {
    |Named(live, name) * uids|
  }

  /** Each name has as many profiles among `uids` as creations of it were reported as a success. */
  ghost predicate Counted(live: Stored, uids: set<nat>, calls: seq<Call>) {
    forall name: string :: CountOf(live, uids, name) == multiset(calls)[CreateCall(name, true)]
  }

  lemma CountedMore(live: Stored, uids: set<nat>, calls: seq<Call>, more: seq<Call>)
    requires Counted(live, uids, calls) && forall k :: 0 <= k < |more| ==> !(more[k].CreateCall? && more[k].ok)
    ensures Counted(live, uids, calls + more)
  {
    forall name: string
      ensures CountOf(live, uids, name) == multiset(calls + more)[CreateCall(name, true)]
    {
      assert CreateCall(name, true) !in more;
      assert multiset(calls + more) == multiset(calls) + multiset(more);
    }
  }

  /** A profile whose creation was not confirmed does not count. */
  lemma CountedStored(live: Stored, uids: set<nat>, calls: seq<Call>, cm: ConfigMap)
    requires Counted(live, uids, calls) && uids <= live.Keys && cm.uid !in live
    ensures Counted(live[cm.uid := cm], uids, calls)
  {
    forall name: string
      ensures CountOf(live[cm.uid := cm], uids, name) == CountOf(live, uids, name)
    {
      assert Named(live[cm.uid := cm], name) * uids == Named(live, name) * uids;
    }
  }

  lemma CountConfirmed(live: Stored, uids: set<nat>, cm: ConfigMap, name: string)
    requires uids <= live.Keys && cm.uid !in live
    ensures CountOf(live[cm.uid := cm], uids + {cm.uid}, name)
         == CountOf(live, uids, name) + if cm.generateName == name then 1 else 0
  {
    var one := if cm.generateName == name then {cm.uid} else {};
    assert Named(live[cm.uid := cm], name) * (uids + {cm.uid}) == Named(live, name) * uids + one;
  }

  lemma CountedConfirmed(live: Stored, uids: set<nat>, calls: seq<Call>, cm: ConfigMap)
    requires Counted(live, uids, calls) && uids <= live.Keys && cm.uid !in live
    ensures Counted(live[cm.uid := cm], uids + {cm.uid},
                    calls + [FetchCall(cm.generateName, true), CreateCall(cm.generateName, true)])
  {
    var more := [FetchCall(cm.generateName, true), CreateCall(cm.generateName, true)];
    forall name: string
      ensures CountOf(live[cm.uid := cm], uids + {cm.uid}, name) == multiset(calls + more)[CreateCall(name, true)]
    {
      CountConfirmed(live, uids, cm, name);
      assert multiset(calls + more) == multiset(calls) + multiset(more);
    }
  }

  /** Fetches and stores one profile. */
  method Scrape(cluster: Cluster, name: string)
    returns (stored: bool, ghost made: Option<ConfigMap>, ghost calls: seq<Call>)
    requires cluster.Valid()
    modifies cluster
    ensures cluster.Valid() && cluster.next >= old(cluster.next)
    ensures old(cluster.history) <= cluster.history <= old(cluster.history) + [cluster.live]
    ensures made.Some? ==> made.value.uid == old(cluster.next) && made.value.generateName == name
    ensures cluster.live == Plus(old(cluster.live), made)
    ensures stored ==> made.Some?
    ensures cluster.confirmed == old(cluster.confirmed) + if stored then {old(cluster.next)} else {}
    ensures cluster.calls == old(cluster.calls) + calls && IsScrape(name, stored, calls)
  {
    stored, made := false, None;
    var fetched := cluster.Fetch(name);
    calls := [FetchCall(name, fetched)];
    if fetched {
      stored, made := cluster.Create(name);
      AddCalls(old(cluster.calls), calls, [CreateCall(name, stored)]);
      calls := calls + [CreateCall(name, stored)];
    }
  }

  /** The names reported as created are those of the successful creations. */
  ghost predicate Reports(calls: seq<Call>, created: set<string>) {
    forall name: string :: name in created <==> CreateCall(name, true) in calls
  }

  /** What is stored, which uids are confirmed, which names are reported and which calls were made. */
  datatype Progress = Progress(live: Stored, uids: set<nat>, created: set<string>, calls: seq<Call>)

  /** The progress after the calls for `names`, from `base` and the uid `next` on. */
  ghost predicate Scraped(base: Stored, next: nat, names: seq<string>, p: Progress) {
    match p
    case Progress(live, uids, created, calls) =>
      && Extends(base, next, names, live) && Tracks(base, live, uids, created)
      && Scrapes(names, calls) && Reports(calls, created) && Counted(live, uids, calls)
  }

  lemma CountedNext(live: Stored, uids: set<nat>, calls: seq<Call>, name: string, stored: bool,
                    made: Option<ConfigMap>, more: seq<Call>)
    requires Counted(live, uids, calls) && uids <= live.Keys && IsScrape(name, stored, more) && (stored ==> made.Some?)
    requires made.Some? ==> made.value.uid !in live && made.value.generateName == name
    ensures Counted(Plus(live, made), if stored then uids + {made.value.uid} else uids, calls + more)
  {
    if stored {
      CountedConfirmed(live, uids, calls, made.value);
    } else {
      if made.Some? {
        CountedStored(live, uids, calls, made.value);
      }
      CountedMore(Plus(live, made), uids, calls, more);
    }
  }

  ghost function Plus(live: Stored, made: Option<ConfigMap>): Stored {
    if made.Some? then live[made.value.uid := made.value] else live
  }

  /** The calls for one argument. */
  ghost predicate IsScrape(name: string, stored: bool, calls: seq<Call>) {
    (calls == [FetchCall(name, false)] && !stored) || calls == [FetchCall(name, true), CreateCall(name, stored)]
  }

  lemma ScrapedNext(base: Stored, next: nat, names: seq<string>, i: nat, live: Stored, uids: set<nat>,
                    created: set<string>, calls: seq<Call>,
                    stored: bool, made: Option<ConfigMap>, more: seq<Call>)
    requires i < |names| && Scraped(base, next, names[..i], Progress(live, uids, created, calls))
    requires IsScrape(names[i], stored, more) && (stored ==> made.Some?)
    requires made.Some? ==> made.value.uid !in live && made.value.uid !in base && made.value.uid >= next
                            && made.value.generateName == names[i]
    ensures Scraped(base, next, names[..i + 1],
              Progress(Plus(live, made), if stored then uids + {made.value.uid} else uids,
                       if stored then created + {names[i]} else created, calls + more))
    ensures Extends(base, next, names, Plus(live, made))
  {
    if made.Some? {
      TracksMore(base, live, uids, created, made.value);
    }
    ExtendsMore(base, next, names, i, live, made);
    ScrapesNext(names, i, calls, more, stored);
    CountedNext(live, uids, calls, names[i], stored, made, more);
  }

  /** One argument takes the progress from `q` to `p`: its calls `more` stored `made`, if anything, under a uid from
      `next` on that was not in use. */
  ghost predicate Adds(next: nat, q: Progress, name: string, stored: bool, made: Option<ConfigMap>, more: seq<Call>,
                       p: Progress) {
    && IsScrape(name, stored, more) && (stored ==> made.Some?)
    && (made.Some? ==> made.value.uid !in q.live && made.value.uid >= next && made.value.generateName == name)
    && p == Progress(Plus(q.live, made), if stored then q.uids + {made.value.uid} else q.uids,
                     if stored then q.created + {name} else q.created, q.calls + more)
  }

  /** The calls for `names`, one after the other, lead from `base` to `p`. */
  ghost predicate Makes(base: Stored, next: nat, names: seq<string>, p: Progress)
    decreases |names|, 0
  {
    if |names| == 0 then p == Progress(base, {}, {}, [])
    else MakesLast(base, next, names[..|names| - 1], names[|names| - 1], p)
  }

  ghost predicate MakesLast(base: Stored, next: nat, names: seq<string>, name: string, p: Progress)
    decreases |names|, 1
  {
    exists q: Progress, stored: bool, made: Option<ConfigMap>, more: seq<Call> ::
      Makes(base, next, names, q) && Adds(next, q, name, stored, made, more, p)
  }

  lemma MakesNext(base: Stored, next: nat, names: seq<string>, i: nat, q: Progress, stored: bool,
                  made: Option<ConfigMap>, more: seq<Call>, p: Progress)
    requires i < |names| && Makes(base, next, names[..i], q) && Adds(next, q, names[i], stored, made, more, p)
    ensures Makes(base, next, names[..i + 1], p)
  {
    assert names[..i + 1][..i] == names[..i];
    assert MakesLast(base, next, names[..i], names[i], p);
  }

  /** What the calls for the arguments amount to, however they end. */
  lemma {:induction false} MakesScraped(base: Stored, next: nat, names: seq<string>, p: Progress)
    requires Makes(base, next, names, p) && forall u :: u in base ==> u < next
    ensures Scraped(base, next, names, p)
    decreases |names|
  {
    if |names| == 0 {
      ScrapedNone(base, next);
    } else {
      var n := |names| - 1;
      var q: Progress, stored: bool, made: Option<ConfigMap>, more: seq<Call> :|
        Makes(base, next, names[..n], q) && Adds(next, q, names[n], stored, made, more, p);
      MakesScraped(base, next, names[..n], q);
      ScrapedNext(base, next, names, n, q.live, q.uids, q.created, q.calls, stored, made, more);
      assert names[..n + 1] == names;
    }
  }

  lemma ScrapedNone(base: Stored, next: nat)
    ensures Scraped(base, next, [], Progress(base, {}, {}, []))
  {
    assert forall name :: Named(base, name) * {} == {};
  }

  lemma MakesExtends(base: Stored, next: nat, names: seq<string>, i: nat, p: Progress)
    requires i <= |names| && Makes(base, next, names[..i], p) && forall u :: u in base ==> u < next
    ensures Extends(base, next, names, p.live)
  {
    MakesScraped(base, next, names[..i], p);
    forall name: string
      ensures Count(p.live, name) <= Count(base, name) + Mentions(names, name)
    {
      MentionsPrefix(names, i, name);
    }
  }

  /** Fetches and stores a profile for each argument; a failure only skips that argument. */
  method CreateProfiles(cluster: Cluster, names: seq<string>)
    returns (created: set<string>, ghost uids: set<nat>, ghost calls: seq<Call>)
    requires cluster.Valid()
    modifies cluster
    ensures cluster.Valid() && cluster.calls == old(cluster.calls) + calls
    ensures cluster.confirmed == old(cluster.confirmed) + uids && old(cluster.confirmed) !! uids
    ensures Makes(old(cluster.live), old(cluster.next), names, Progress(cluster.live, uids, created, calls))
    ensures old(cluster.history) <= cluster.history
    ensures AllExtend(old(cluster.live), old(cluster.next), names, cluster.history, |old(cluster.history)|)
  {
    created, uids, calls := {}, {}, [];
    ghost var base, next, from := cluster.live, cluster.next, |cluster.history|;
    for i := 0 to |names|
      invariant cluster.Valid() && next <= cluster.next && cluster.calls == old(cluster.calls) + calls
      invariant cluster.confirmed == old(cluster.confirmed) + uids && old(cluster.confirmed) !! uids
      invariant Makes(base, next, names[..i], Progress(cluster.live, uids, created, calls))
      invariant old(cluster.history) <= cluster.history
      invariant AllExtend(base, next, names, cluster.history, from)
    {
      ghost var q, history := Progress(cluster.live, uids, created, calls), cluster.history;
      var stored, made, more := Scrape(cluster, names[i]);
      AddCalls(old(cluster.calls), calls, more);
      calls := calls + more;
      if stored {
        created, uids := created + {names[i]}, uids + {made.value.uid};
      }
      ghost var p := Progress(cluster.live, uids, created, calls);
      MakesNext(base, next, names, i, q, stored, made, more, p);
      MakesExtends(base, next, names, i + 1, p);
      AllExtendMore(base, next, names, history, from, cluster.history, cluster.live);
    }
    assert names[..|names|] == names;
  }

  /** The newest profiles of names for which a new one was stored. */
  ghost function ReplacedUids(newest: seq<ConfigMap>, created: set<string>): set<nat> {
    set k | 0 <= k < |newest| && newest[k].generateName in created :: newest[k].uid
  }

  lemma ReplacedUidsNext(newest: seq<ConfigMap>, i: nat, created: set<string>)
    requires i < |newest|
    ensures ReplacedUids(newest[..i + 1], created)
         == ReplacedUids(newest[..i], created) + if newest[i].generateName in created then {newest[i].uid} else {}
    ensures newest[i].generateName in created ==> newest[i].uid in ReplacedUids(newest, created)
  {
    forall u | u in ReplacedUids(newest[..i], created)
      ensures u in ReplacedUids(newest[..i + 1], created)
    {
      var k :| 0 <= k < i && newest[k].generateName in created && newest[k].uid == u;
      assert newest[..i + 1][k] == newest[k];
    }
    assert newest[..i + 1][i] == newest[i];
  }

  lemma ReplacedGone(start: Stored, newest: seq<ConfigMap>, i: nat, created: set<string>, live: Stored)
    requires i < |newest| && live == start - ReplacedUids(newest[..i], created)
    ensures (if newest[i].generateName in created then live - {newest[i].uid} else live)
         == start - ReplacedUids(newest[..i + 1], created)
  {
    ReplacedUidsNext(newest, i, created);
  }

  /** The profiles of the names whose creation was reported as a success. */
  ghost function WasStored(scrapes: seq<Call>): ConfigMap -> bool {
    (cm: ConfigMap) => CreateCall(cm.generateName, true) in scrapes
  }

  ghost predicate DeletesAt(cms: seq<ConfigMap>, places: seq<nat>, calls: seq<Call>) {
    |calls| == |places| && forall k :: 0 <= k < |places| ==>
      places[k] < |cms| && calls[k].DeleteCall? && calls[k].uid == cms[places[k]].uid
  }

  /** The calls delete those of `newest` for whose names a new profile was stored, in order, and no others. */
  ghost predicate Replaces(newest: seq<ConfigMap>, scrapes: seq<Call>, calls: seq<Call>) {
    exists places: seq<nat> :: Picks(newest, WasStored(scrapes), places) && DeletesAt(newest, places, calls)
  }

  /** The same, one profile after the other. */
  ghost predicate ReplacesEach(newest: seq<ConfigMap>, scrapes: seq<Call>, calls: seq<Call>) {
    if |newest| == 0 then calls == []
    else
      var cm, init := newest[|newest| - 1], newest[..|newest| - 1];
      if CreateCall(cm.generateName, true) in scrapes then
        && |calls| > 0 && calls[|calls| - 1].DeleteCall? && calls[|calls| - 1].uid == cm.uid
        && ReplacesEach(init, scrapes, calls[..|calls| - 1])
      else ReplacesEach(init, scrapes, calls)
  }

  lemma ReplacesNext(newest: seq<ConfigMap>, i: nat, scrapes: seq<Call>, calls: seq<Call>, more: seq<Call>, ok: bool)
    requires i < |newest| && ReplacesEach(newest[..i], scrapes, calls)
    requires more == if CreateCall(newest[i].generateName, true) in scrapes then [DeleteCall(newest[i].uid, ok)] else []
    ensures ReplacesEach(newest[..i + 1], scrapes, calls + more)
  {
    assert newest[..i + 1][..i] == newest[..i];
    assert (calls + more)[..|calls|] == calls;
    assert calls + [] == calls;
  }

  lemma {:induction false} ReplacesEachReplaces(newest: seq<ConfigMap>, scrapes: seq<Call>, calls: seq<Call>)
    requires ReplacesEach(newest, scrapes, calls)
    ensures Replaces(newest, scrapes, calls)
    decreases |newest|
  {
    if |newest| == 0 {
      assert Picks(newest, WasStored(scrapes), []) && DeletesAt(newest, [], calls);
    } else {
      var n := |newest| - 1;
      if WasStored(scrapes)(newest[n]) {
        ReplacesEachReplaces(newest[..n], scrapes, calls[..|calls| - 1]);
        ReplacesOne(newest, scrapes, calls);
      } else {
        ReplacesEachReplaces(newest[..n], scrapes, calls);
        ReplacesSkip(newest, scrapes, calls);
      }
    }
  }

  lemma ReplacesOne(newest: seq<ConfigMap>, scrapes: seq<Call>, calls: seq<Call>)
    requires |newest| > 0 && |calls| > 0 && WasStored(scrapes)(newest[|newest| - 1])
    requires calls[|calls| - 1].DeleteCall? && calls[|calls| - 1].uid == newest[|newest| - 1].uid
    requires Replaces(newest[..|newest| - 1], scrapes, calls[..|calls| - 1])
    ensures Replaces(newest, scrapes, calls)
  {
    var n, m := |newest| - 1, |calls| - 1;
    var places: seq<nat> :|
      Picks(newest[..n], WasStored(scrapes), places) && DeletesAt(newest[..n], places, calls[..m]);
    PicksNext(newest[..n], newest[n], WasStored(scrapes), places);
    assert newest == newest[..n] + [newest[n]];
    assert DeletesAt(newest, places + [n], calls);
  }

  lemma ReplacesSkip(newest: seq<ConfigMap>, scrapes: seq<Call>, calls: seq<Call>)
    requires |newest| > 0 && !WasStored(scrapes)(newest[|newest| - 1])
    requires Replaces(newest[..|newest| - 1], scrapes, calls)
    ensures Replaces(newest, scrapes, calls)
  {
    var n := |newest| - 1;
    var places: seq<nat> :|
      Picks(newest[..n], WasStored(scrapes), places) && DeletesAt(newest[..n], places, calls);
    PicksSkip(newest[..n], newest[n], WasStored(scrapes), places);
    assert newest == newest[..n] + [newest[n]];
    assert DeletesAt(newest, places, calls);
  }

  /** Deletes one newest profile if it was replaced. */
  method DeleteIfReplaced(cluster: Cluster, newest: seq<ConfigMap>, i: nat, created: set<string>,
                          ghost scrapes: seq<Call>, ghost calls: seq<Call>)
    returns (ok: bool, ghost more: seq<Call>)
    requires cluster.Valid() && i < |newest| && Reports(scrapes, created) && ReplacesEach(newest[..i], scrapes, calls)
    modifies cluster
    ensures cluster.Valid() && cluster.confirmed == old(cluster.confirmed)
    ensures cluster.calls == old(cluster.calls) + more && ReplacesEach(newest[..i + 1], scrapes, calls + more)
    ensures ok <==> AllOk(more)
    ensures cluster.live == old(cluster.live)
         || (newest[i].generateName in created && cluster.live == old(cluster.live) - {newest[i].uid})
    ensures ok && newest[i].generateName in created ==> cluster.live == old(cluster.live) - {newest[i].uid}
    ensures old(cluster.history) <= cluster.history <= old(cluster.history) + [cluster.live]
  {
    ok, more := true, [];
    if newest[i].generateName in created {
      ok := cluster.Delete(newest[i]);
      more := [DeleteCall(newest[i].uid, ok)];
    }
    ReplacesNext(newest, i, scrapes, calls, more, ok);
    AllOkNext([], DeleteCall(newest[i].uid, ok));
  }

  /** Deletes the newest profiles that were replaced. */
  method DeleteReplaced(cluster: Cluster, newest: seq<ConfigMap>, created: set<string>, ghost scrapes: seq<Call>)
    returns (ok: bool, ghost calls: seq<Call>)
    requires cluster.Valid() && Reports(scrapes, created)
    modifies cluster
    ensures cluster.Valid() && cluster.confirmed == old(cluster.confirmed)
    ensures cluster.calls == old(cluster.calls) + calls && ReplacesEach(newest, scrapes, calls)
    ensures ok <==> AllOk(calls)
    ensures ok ==> cluster.live == old(cluster.live) - ReplacedUids(newest, created)
    ensures Trimmed(old(cluster.live), ReplacedUids(newest, created), cluster.live)
    ensures old(cluster.history) <= cluster.history
    ensures AllTrimmed(old(cluster.live), ReplacedUids(newest, created), cluster.history, |old(cluster.history)|)
  {
    ok, calls := true, [];
    ghost var start, from, doomed := cluster.live, |cluster.history|, ReplacedUids(newest, created);
    for i := 0 to |newest|
      invariant cluster.Valid() && cluster.confirmed == old(cluster.confirmed)
      invariant cluster.calls == old(cluster.calls) + calls && ReplacesEach(newest[..i], scrapes, calls)
      invariant ok <==> AllOk(calls)
      invariant ok ==> cluster.live == start - ReplacedUids(newest[..i], created)
      invariant Trimmed(start, doomed, cluster.live)
      invariant old(cluster.history) <= cluster.history
      invariant AllTrimmed(start, doomed, cluster.history, from)
    {
      ghost var before, history := cluster.live, cluster.history;
      if ok {
        ReplacedGone(start, newest, i, created, cluster.live);
      }
      var deleted, more := DeleteIfReplaced(cluster, newest, i, created, scrapes, calls);
      AddCalls(old(cluster.calls), calls, more);
      AllOkJoin(calls, more);
      ok, calls := ok && deleted, calls + more;
      ReplacedTrimmed(start, newest, i, created, before, cluster.live);
      AllTrimmedMore(start, doomed, history, from, cluster.history, cluster.live);
    }
    assert newest[..|newest|] == newest;
  }

  lemma ReplacedTrimmed(start: Stored, newest: seq<ConfigMap>, i: nat, created: set<string>, live: Stored,
                        live': Stored)
    requires i < |newest| && Trimmed(start, ReplacedUids(newest, created), live)
    requires live' == live || (newest[i].generateName in created && live' == live - {newest[i].uid})
    ensures Trimmed(start, ReplacedUids(newest, created), live')
  {
    ReplacedUidsNext(newest, i, created);
    if live' != live {
      TrimmedMore(start, ReplacedUids(newest, created), live, live', newest[i].uid);
    }
  }

  // ----- What every state of a run satisfies -----

  /** Each name that had a profile when the run began still has one: its newest, or one made by this run. */
  ghost predicate Safe(start: Stored, newest: seq<ConfigMap>, live: Stored) {
    forall k :: 0 <= k < |newest| ==>
      (newest[k].uid in live && live[newest[k].uid] == newest[k]) || Made(start, live, newest[k].generateName)
  }

  /** No name has more profiles than before the run, or than one plus the arguments naming it. */
  ghost predicate Bounded(start: Stored, names: seq<string>, live: Stored) {
    forall name: string :: Count(live, name) <= Count(start, name) || Count(live, name) <= 1 + Mentions(names, name)
  }

  ghost predicate Good(start: Stored, newest: seq<ConfigMap>, names: seq<string>, live: Stored) {
    Safe(start, newest, live) && Bounded(start, names, live)
  }

  /** The calls made since `from` all left a good state. */
  ghost predicate AllGood(start: Stored, newest: seq<ConfigMap>, names: seq<string>, history: seq<Stored>, from: nat) {
    from <= |history| && forall k :: from <= k < |history| ==> Good(start, newest, names, history[k])
  }

  lemma {:induction false} SubsetCard<T>(a: set<T>, b: set<T>)
    requires a <= b
    ensures |a| <= |b|
  {
    if a != {} {
      var x :| x in a;
      SubsetCard(a - {x}, b - {x});
    }
  }

  lemma CountTrimmed(start: Stored, doomed: set<nat>, live: Stored, name: string)
    requires Trimmed(start, doomed, live)
    ensures Count(live, name) <= Count(start, name)
  {
    SubsetCard(Named(live, name), Named(start, name));
  }

  lemma GoodWhileDeleting(start: Stored, newest: seq<ConfigMap>, expired: seq<ConfigMap>, names: seq<string>,
                          live: Stored)
    requires Separated(start, newest, expired) && Trimmed(start, Uids(expired), live)
    ensures Good(start, newest, names, live)
  {
    forall k | 0 <= k < |newest|
      ensures newest[k].uid in live && live[newest[k].uid] == newest[k]
    {
      assert newest[k].uid in Uids(newest);
    }
    forall name: string
      ensures Count(live, name) <= Count(start, name)
    {
      CountTrimmed(start, Uids(expired), live, name);
    }
  }

  /** Once the expired are gone, a name has its newest profile and no other. */
  lemma NewestOnly(start: Stored, newest: seq<ConfigMap>, expired: seq<ConfigMap>, name: string)
    requires Separated(start, newest, expired)
    ensures Count(start - Uids(expired), name) == if Count(start, name) > 0 then 1 else 0
  {
    var left := Named(start - Uids(expired), name);
    forall u, v | u in left && v in left
      ensures u == v
    {
      assert u in Uids(newest) && v in Uids(newest);
    }
    if Count(start, name) > 0 {
      var u :| u in Named(start, name);
      assert HasName(newest, start[u].generateName);
      var k :| 0 <= k < |newest| && newest[k].generateName == name;
      assert newest[k].uid in Uids(newest);
      assert newest[k].uid in left;
      assert left == {newest[k].uid};
    } else {
      assert left <= Named(start, name);
      assert left == {};
    }
  }

  lemma NewestLeft(start: Stored, newest: seq<ConfigMap>, expired: seq<ConfigMap>, k: nat)
    requires Separated(start, newest, expired) && k < |newest|
    ensures newest[k].uid in start - Uids(expired) && (start - Uids(expired))[newest[k].uid] == newest[k]
  {
    assert newest[k].uid in Uids(newest);
  }

  lemma BoundedWhileCreating(start: Stored, newest: seq<ConfigMap>, expired: seq<ConfigMap>, next: nat,
                             names: seq<string>, live: Stored)
    requires Separated(start, newest, expired) && Extends(start - Uids(expired), next, names, live)
    ensures forall name: string :: Count(live, name) <= 1 + Mentions(names, name)
  {
    forall name: string
      ensures Count(live, name) <= 1 + Mentions(names, name)
    {
      NewestOnly(start, newest, expired, name);
    }
  }

  lemma GoodWhileCreating(start: Stored, newest: seq<ConfigMap>, expired: seq<ConfigMap>, next: nat,
                          names: seq<string>, live: Stored)
    requires Separated(start, newest, expired) && Extends(start - Uids(expired), next, names, live)
    ensures Good(start, newest, names, live)
  {
    BoundedWhileCreating(start, newest, expired, next, names, live);
    forall k | 0 <= k < |newest|
      ensures newest[k].uid in live && live[newest[k].uid] == newest[k]
    {
      NewestLeft(start, newest, expired, k);
    }
  }

  lemma GoodWhileReplacing(start: Stored, newest: seq<ConfigMap>, expired: seq<ConfigMap>, next: nat,
                           names: seq<string>,
                           mid: Stored, uids: set<nat>, created: set<string>, live: Stored)
    requires Separated(start, newest, expired) && forall u :: u in start ==> u < next
    requires Extends(start - Uids(expired), next, names, mid) && Tracks(start - Uids(expired), mid, uids, created)
    requires Trimmed(mid, ReplacedUids(newest, created), live)
    ensures Good(start, newest, names, live)
  {
    BoundedWhileCreating(start, newest, expired, next, names, mid);
    forall name: string
      ensures Count(live, name) <= 1 + Mentions(names, name)
    {
      CountTrimmed(mid, ReplacedUids(newest, created), live, name);
    }
    forall k | 0 <= k < |newest|
      ensures (newest[k].uid in live && live[newest[k].uid] == newest[k]) || Made(start, live, newest[k].generateName)
    {
      NewestLeft(start, newest, expired, k);
      if newest[k].uid !in live {
        SurvivorMade(start, newest, expired, next, names, mid, uids, created, live, k);
      }
    }
  }

  /** A newest profile is only deleted once a new one of its name is there to stay. */
  lemma SurvivorMade(start: Stored, newest: seq<ConfigMap>, expired: seq<ConfigMap>, next: nat, names: seq<string>,
                     mid: Stored, uids: set<nat>, created: set<string>, live: Stored, k: nat)
    requires Separated(start, newest, expired) && forall u :: u in start ==> u < next
    requires Extends(start - Uids(expired), next, names, mid) && Tracks(start - Uids(expired), mid, uids, created)
    requires Trimmed(mid, ReplacedUids(newest, created), live)
    requires k < |newest| && newest[k].uid in mid && newest[k].uid !in live
    ensures Made(start, live, newest[k].generateName)
  {
    var j :| 0 <= j < |newest| && newest[j].generateName in created && newest[j].uid == newest[k].uid;
    assert newest[j] == newest[k];
    TrackedIsMade(start - Uids(expired), mid, uids, created, newest[k].generateName);
    var u :| u in mid && u !in start - Uids(expired) && mid[u].generateName == newest[k].generateName;
    assert u >= next && u !in start;
    assert u in live && live[u] == mid[u];
  }

  lemma ReplacedOfName(start: Stored, newest: seq<ConfigMap>, expired: seq<ConfigMap>, created: set<string>, u: nat)
    requires Separated(start, newest, expired) && u in start - Uids(expired)
    ensures u in ReplacedUids(newest, created) <==> start[u].generateName in created
  {
    assert u in Uids(newest);
    var k :| 0 <= k < |newest| && newest[k].uid == u;
    assert start[u] == newest[k];
  }

  /** The old profiles of a name that survive: none if the name was replaced, otherwise its newest. */
  lemma OldAfterReplacing(start: Stored, newest: seq<ConfigMap>, expired: seq<ConfigMap>, next: nat, names: seq<string>,
                          mid: Stored, created: set<string>, name: string)
    requires Separated(start, newest, expired) && forall u :: u in start ==> u < next
    requires Extends(start - Uids(expired), next, names, mid)
    ensures Named(mid - ReplacedUids(newest, created), name) * start.Keys
         == if name in created then {} else Named(start - Uids(expired), name)
  {
    var base := start - Uids(expired);
    forall u | u in base
      ensures mid[u] == start[u] && (u in ReplacedUids(newest, created) <==> start[u].generateName in created)
    {
      ReplacedOfName(start, newest, expired, created, u);
    }
    assert forall u :: u in mid && u in start ==> u in base;
  }

  /** After a run without a failed deletion a name has the profiles made for it, and its old newest one
      unless that was replaced. */
  lemma CountAfterReplacing(start: Stored, newest: seq<ConfigMap>, expired: seq<ConfigMap>, next: nat,
                            names: seq<string>,
                            mid: Stored, created: set<string>, name: string)
    requires Separated(start, newest, expired) && forall u :: u in start ==> u < next
    requires Extends(start - Uids(expired), next, names, mid)
    ensures Count(mid - ReplacedUids(newest, created), name)
         == Count(mid - ReplacedUids(newest, created) - start.Keys, name)
            + if Count(start, name) > 0 && name !in created then 1 else 0
  {
    var live := mid - ReplacedUids(newest, created);
    OldAfterReplacing(start, newest, expired, next, names, mid, created, name);
    NewestOnly(start, newest, expired, name);
    CountSplit(live, start.Keys, name);
  }

  lemma CountSplit(live: Stored, keys: set<nat>, name: string)
    ensures Count(live, name) == |Named(live, name) * keys| + Count(live - keys, name)
  {
    assert Named(live, name) == Named(live, name) * keys + Named(live - keys, name);
  }

  // ----- What was called and what it made -----

  datatype Outcome =
    | NoArguments | ConfigError | Disabled | BadArgument | ListFailed
    | DeleteFailed | CertRenewed | ReplaceFailed | Completed

  /** The run got as far as touching the cluster. */
  predicate Touched(outcome: Outcome) {
    outcome.DeleteFailed? || outcome.CertRenewed? || outcome.ReplaceFailed? || outcome.Completed?
  }

  /** The calls of a run once it has listed the profiles: it tries to delete each expired one; only if all of that
      succeeded it checks the certificate; only if that succeeded it tries to make a profile for each argument and
      then to delete the newest ones that were replaced. The outcome says which of these failed. */
  ghost predicate Traced(outcome: Outcome, names: seq<string>, newest: seq<ConfigMap>, expired: seq<ConfigMap>,
                         calls: seq<Call>) {
    var n := |expired|;
    && Touched(outcome) && |calls| >= n && Deletes(expired, calls[..n])
    && (outcome.DeleteFailed? <==> !AllOk(calls[..n]))
    && (outcome.DeleteFailed? ==> |calls| == n)
    && (!outcome.DeleteFailed? ==> |calls| > n && calls[n] == CertCall(!outcome.CertRenewed?))
    && (outcome.CertRenewed? ==> |calls| == n + 1)
    && (outcome.ReplaceFailed? || outcome.Completed? ==> TracedMaking(outcome, names, newest, calls[n + 1..]))
  }

  ghost predicate TracedMaking(outcome: Outcome, names: seq<string>, newest: seq<ConfigMap>, calls: seq<Call>) {
    exists m: nat :: m <= |calls| && Scrapes(names, calls[..m]) && Replaces(newest, calls[..m], calls[m..])
      && (outcome.Completed? <==> AllOk(calls[m..]))
  }

  /** A profile of before the run is still there exactly if it is the newest of its name and no new one of that
      name was stored. */
  ghost predicate Outlives(start: Stored, newest: seq<ConfigMap>, live: Stored, calls: seq<Call>) {
    forall u :: u in start ==>
      (u in live <==> u in Uids(newest) && CreateCall(start[u].generateName, true) !in calls)
  }

  /** Each name has one new profile for each argument naming it. */
  ghost predicate OneEach(start: Stored, names: seq<string>, live: Stored) {
    forall name: string :: Count(live - start.Keys, name) == Mentions(names, name)
  }

  /** The counts after a completed run; `uids` are the profiles confirmed in it. */
  ghost predicate Settled(start: Stored, live: Stored, uids: set<nat>) {
    forall name: string ::
      Count(live, name) == Count(live - start.Keys, name)
        + if Count(start, name) > 0 && !Confirmed(live, uids, name) then 1 else 0
  }

  lemma CompletedIsSettled(start: Stored, newest: seq<ConfigMap>, expired: seq<ConfigMap>, next: nat,
                           names: seq<string>,
                           mid: Stored, uids: set<nat>, created: set<string>)
    requires Separated(start, newest, expired) && forall u :: u in start ==> u < next
    requires Extends(start - Uids(expired), next, names, mid) && Tracks(start - Uids(expired), mid, uids, created)
    ensures Settled(start, mid - ReplacedUids(newest, created), uids)
  {
    var live := mid - ReplacedUids(newest, created);
    forall u | u in uids
      ensures u in live && live[u] == mid[u]
    {
      assert u !in start;
    }
    forall name: string
      ensures Count(live, name) == Count(live - start.Keys, name)
              + if Count(start, name) > 0 && !Confirmed(live, uids, name) then 1 else 0
    {
      CountAfterReplacing(start, newest, expired, next, names, mid, created, name);
      assert Confirmed(live, uids, name) <==> Confirmed(mid, uids, name);
    }
  }

  /** What a run may do to the profiles once it has listed them, the uids from `next` on being unused; `uids` are
      the profiles confirmed in it. */
  ghost predicate Rotates(outcome: Outcome, start: Stored, next: nat, names: seq<string>, newest: seq<ConfigMap>,
                          expired: seq<ConfigMap>, live: Stored, uids: set<nat>, calls: seq<Call>) {
    || (outcome.DeleteFailed? && uids == {} && Deletes(expired, calls) && !AllOk(calls))
    || (outcome.CertRenewed? && uids == {} && exists deletes: seq<Call> ::
          Deletes(expired, deletes) && AllOk(deletes) && calls == deletes + [CertCall(false)])
    || exists deletes: seq<Call>, p: Progress, more: seq<Call> ::
         && Deletes(expired, deletes) && AllOk(deletes) && Makes(start - Uids(expired), next, names, p)
         && Replacing(outcome, newest, p, live, more)
         && uids == p.uids && calls == deletes + [CertCall(true)] + p.calls + more
  }

  ghost predicate Replacing(outcome: Outcome, newest: seq<ConfigMap>, p: Progress, live: Stored, calls: seq<Call>) {
    && ReplacesEach(newest, p.calls, calls) && Trimmed(p.live, ReplacedUids(newest, p.created), live)
    && outcome == (if AllOk(calls) then Completed else ReplaceFailed)
    && (AllOk(calls) ==> live == p.live - ReplacedUids(newest, p.created))
  }

  /** What the calls of a run amount to: they are the ones above, each name has as many profiles confirmed in it as
      creations of it succeeded, and if every call succeeds it completes with one new profile for each argument. */
  ghost predicate Rotated(outcome: Outcome, start: Stored, names: seq<string>, newest: seq<ConfigMap>,
                          expired: seq<ConfigMap>, live: Stored, uids: set<nat>, calls: seq<Call>) {
    && Traced(outcome, names, newest, expired, calls) && uids !! start.Keys && Counted(live, uids, calls)
    && (outcome.Completed? ==> Settled(start, live, uids) && Outlives(start, newest, live, calls))
    && (AllOk(calls) ==> outcome.Completed? && OneEach(start, names, live))
  }

  lemma RotatesRotated(outcome: Outcome, start: Stored, next: nat, names: seq<string>, newest: seq<ConfigMap>,
                       expired: seq<ConfigMap>, live: Stored, uids: set<nat>, calls: seq<Call>)
    requires Separated(start, newest, expired) && forall u :: u in start ==> u < next
    requires Rotates(outcome, start, next, names, newest, expired, live, uids, calls)
    ensures Rotated(outcome, start, names, newest, expired, live, uids, calls)
  {
    if outcome.DeleteFailed? {
      RotatedShort(start, names, newest, expired, live, calls);
    } else if outcome.CertRenewed? {
      var deletes: seq<Call> :| Deletes(expired, deletes) && AllOk(deletes) && calls == deletes + [CertCall(false)];
      RotatedShort(start, names, newest, expired, live, deletes);
    } else {
      var deletes: seq<Call>, p: Progress, more: seq<Call> :|
        && Deletes(expired, deletes) && AllOk(deletes) && Makes(start - Uids(expired), next, names, p)
        && Replacing(outcome, newest, p, live, more)
        && uids == p.uids && calls == deletes + [CertCall(true)] + p.calls + more;
      MakesScraped(start - Uids(expired), next, names, p);
      RotatedWhole(outcome, start, newest, expired, next, names, deletes, p, live, more);
    }
  }

  lemma {:induction false} ScrapesMention(names: seq<string>, calls: seq<Call>, name: string)
    requires Scrapes(names, calls) && AllOk(calls)
    ensures multiset(calls)[CreateCall(name, true)] == Mentions(names, name)
    decreases |names|
  {
    if |names| > 0 {
      var n, m := |names| - 1, |calls| - 2;
      assert calls[|calls| - 1] != FetchCall(names[n], false);
      var init, last := calls[..m], [FetchCall(names[n], true), CreateCall(names[n], true)];
      assert calls == init + last;
      assert AllOk(init) by {
        assert forall k :: 0 <= k < m ==> init[k] == calls[k];
      }
      ScrapesMention(names[..n], init, name);
      assert multiset(calls) == multiset(init) + multiset(last);
    }
  }

  lemma NoneMade(cms: seq<ConfigMap>, places: seq<nat>, calls: seq<Call>, name: string)
    requires Deletes(cms, calls) || DeletesAt(cms, places, calls)
    ensures multiset(calls)[CreateCall(name, true)] == 0
  {
    assert forall k :: 0 <= k < |calls| ==> calls[k].DeleteCall?;
    assert CreateCall(name, true) !in calls;
  }

  /** Only the calls for the arguments make profiles. */
  lemma MadeByScrapes(newest: seq<ConfigMap>, expired: seq<ConfigMap>, deletes: seq<Call>, scrapes: seq<Call>,
                      swaps: seq<Call>, name: string)
    requires Deletes(expired, deletes) && Replaces(newest, scrapes, swaps)
    ensures multiset(deletes + [CertCall(true)] + scrapes + swaps)[CreateCall(name, true)]
         == multiset(scrapes)[CreateCall(name, true)]
  {
    var places: seq<nat> :| Picks(newest, WasStored(scrapes), places) && DeletesAt(newest, places, swaps);
    NoneMade(expired, places, deletes, name);
    NoneMade(newest, places, swaps, name);
    var calls := deletes + [CertCall(true)] + scrapes + swaps;
    assert multiset(calls) == multiset(deletes) + multiset{CertCall(true)} + multiset(scrapes) + multiset(swaps);
  }

  lemma RotatedShort(start: Stored, names: seq<string>, newest: seq<ConfigMap>,
                     expired: seq<ConfigMap>, live: Stored, deletes: seq<Call>)
    requires Deletes(expired, deletes)
    ensures !AllOk(deletes) ==> Rotated(DeleteFailed, start, names, newest, expired, live, {}, deletes)
    ensures AllOk(deletes) ==>
              Rotated(CertRenewed, start, names, newest, expired, live, {}, deletes + [CertCall(false)])
  {
    var calls := deletes + [CertCall(false)];
    assert deletes[..|expired|] == deletes && calls[..|expired|] == deletes;
    assert !calls[|expired|].ok;
    forall name: string
      ensures multiset(deletes)[CreateCall(name, true)] == 0 && multiset(calls)[CreateCall(name, true)] == 0
    {
      NoneMade(expired, [], deletes, name);
      assert multiset(calls) == multiset(deletes) + multiset{CertCall(false)};
    }
    assert forall name :: Named(live, name) * {} == {};
  }

  /** Deleting replaced profiles leaves those that this run made. */
  lemma MadeRemain(start: Stored, newest: seq<ConfigMap>, expired: seq<ConfigMap>, mid: Stored, uids: set<nat>,
                   created: set<string>, live: Stored)
    requires Separated(start, newest, expired) && uids !! start.Keys && uids <= mid.Keys
    requires Trimmed(mid, ReplacedUids(newest, created), live)
    ensures forall name: string :: CountOf(live, uids, name) == CountOf(mid, uids, name)
  {
    forall name: string
      ensures Named(live, name) * uids == Named(mid, name) * uids
    {
    }
  }

  /** If every argument's profile was confirmed, the new profiles are the confirmed ones. */
  lemma MadeAreConfirmed(base: Stored, next: nat, names: seq<string>, mid: Stored, uids: set<nat>, name: string)
    requires Extends(base, next, names, mid) && uids <= mid.Keys && uids !! base.Keys
    requires CountOf(mid, uids, name) == Mentions(names, name)
    ensures Count(mid - base.Keys, name) == Mentions(names, name)
  {
    CountSplit(mid, base.Keys, name);
    assert Named(mid, name) * base.Keys == Named(base, name);
    SubsetCard(Named(mid, name) * uids, Named(mid - base.Keys, name));
  }

  lemma OneEachMade(start: Stored, newest: seq<ConfigMap>, expired: seq<ConfigMap>, next: nat, names: seq<string>,
                    p: Progress)
    requires Separated(start, newest, expired) && forall u :: u in start ==> u < next
    requires Scraped(start - Uids(expired), next, names, p) && AllOk(p.calls)
    ensures OneEach(start, names, p.live - ReplacedUids(newest, p.created))
  {
    var base, live := start - Uids(expired), p.live - ReplacedUids(newest, p.created);
    assert live - start.Keys == p.live - base.Keys;
    forall name: string
      ensures Count(live - start.Keys, name) == Mentions(names, name)
    {
      ScrapesMention(names, p.calls, name);
      MadeAreConfirmed(base, next, names, p.live, p.uids, name);
    }
  }

  lemma OldOutlive(start: Stored, newest: seq<ConfigMap>, expired: seq<ConfigMap>, next: nat, names: seq<string>,
                   p: Progress)
    requires Separated(start, newest, expired) && forall u :: u in start ==> u < next
    requires Scraped(start - Uids(expired), next, names, p)
    ensures Outlives(start, newest, p.live - ReplacedUids(newest, p.created), p.calls)
  {
    forall u | u in start
      ensures u in p.live - ReplacedUids(newest, p.created)
         <==> u in Uids(newest) && CreateCall(start[u].generateName, true) !in p.calls
    {
      if u in Uids(newest) {
        ReplacedOfName(start, newest, expired, p.created, u);
      }
    }
  }

  lemma OutlivesMore(start: Stored, newest: seq<ConfigMap>, live: Stored, calls: seq<Call>, more: seq<Call>)
    requires Outlives(start, newest, live, calls)
    requires forall name: string :: multiset(more)[CreateCall(name, true)] == multiset(calls)[CreateCall(name, true)]
    ensures Outlives(start, newest, live, more)
  {
    forall u | u in start
      ensures CreateCall(start[u].generateName, true) in more <==> CreateCall(start[u].generateName, true) in calls
    {
      var call := CreateCall(start[u].generateName, true);
      assert (call in more <==> multiset(more)[call] > 0) && (call in calls <==> multiset(calls)[call] > 0);
    }
  }

  lemma TracedWhole(names: seq<string>, newest: seq<ConfigMap>, expired: seq<ConfigMap>, deletes: seq<Call>,
                    scrapes: seq<Call>, swaps: seq<Call>)
    requires Deletes(expired, deletes) && AllOk(deletes)
    requires Scrapes(names, scrapes) && Replaces(newest, scrapes, swaps)
    ensures Traced(if AllOk(swaps) then Completed else ReplaceFailed, names, newest, expired,
                   deletes + [CertCall(true)] + scrapes + swaps)
  {
    var calls, rest, m := deletes + [CertCall(true)] + scrapes + swaps, scrapes + swaps, |scrapes|;
    Parts(deletes, CertCall(true), scrapes, swaps);
    assert rest[..m] == scrapes && rest[m..] == swaps;
  }

  lemma Parts(a: seq<Call>, x: Call, b: seq<Call>, c: seq<Call>)
    ensures var calls := a + [x] + b + c;
            calls[..|a|] == a && calls[|a|] == x && calls[|a| + 1..] == b + c
  {
    JoinCalls([], a, [x], b, c);
    assert a + [x] + b + c == a + [x] + (b + c);
  }

  /** What this run made was not there before. */
  lemma NewUids(start: Stored, expired: seq<ConfigMap>, next: nat, names: seq<string>, p: Progress)
    requires Scraped(start - Uids(expired), next, names, p) && forall u :: u in start ==> u < next
    ensures p.uids !! start.Keys
  {
  }

  lemma WholeCompleted(start: Stored, newest: seq<ConfigMap>, expired: seq<ConfigMap>, next: nat, names: seq<string>,
                       p: Progress, calls: seq<Call>)
    requires Separated(start, newest, expired) && forall u :: u in start ==> u < next
    requires Scraped(start - Uids(expired), next, names, p)
    requires forall name: string :: multiset(calls)[CreateCall(name, true)] == multiset(p.calls)[CreateCall(name, true)]
    ensures var live := p.live - ReplacedUids(newest, p.created);
            && Settled(start, live, p.uids) && Outlives(start, newest, live, calls)
            && (AllOk(p.calls) ==> OneEach(start, names, live))
  {
    CompletedIsSettled(start, newest, expired, next, names, p.live, p.uids, p.created);
    OldOutlive(start, newest, expired, next, names, p);
    OutlivesMore(start, newest, p.live - ReplacedUids(newest, p.created), p.calls, calls);
    if AllOk(p.calls) {
      OneEachMade(start, newest, expired, next, names, p);
    }
  }

  lemma RotatedWhole(outcome: Outcome, start: Stored, newest: seq<ConfigMap>, expired: seq<ConfigMap>, next: nat,
                     names: seq<string>, deletes: seq<Call>, p: Progress, live: Stored, swaps: seq<Call>)
    requires Separated(start, newest, expired) && forall u :: u in start ==> u < next
    requires Deletes(expired, deletes) && AllOk(deletes) && Scraped(start - Uids(expired), next, names, p)
    requires Replacing(outcome, newest, p, live, swaps)
    ensures Rotated(outcome, start, names, newest, expired, live, p.uids,
                    deletes + [CertCall(true)] + p.calls + swaps)
  {
    var calls := deletes + [CertCall(true)] + p.calls + swaps;
    ReplacesEachReplaces(newest, p.calls, swaps);
    TracedWhole(names, newest, expired, deletes, p.calls, swaps);
    NewUids(start, expired, next, names, p);
    MadeRemain(start, newest, expired, p.live, p.uids, p.created, live);
    forall name: string
      ensures multiset(calls)[CreateCall(name, true)] == multiset(p.calls)[CreateCall(name, true)]
    {
      MadeByScrapes(newest, expired, deletes, p.calls, swaps, name);
    }
    AllOkJoin(deletes + [CertCall(true)] + p.calls, swaps);
    AllOkJoin(deletes + [CertCall(true)], p.calls);
    if AllOk(swaps) {
      WholeCompleted(start, newest, expired, next, names, p, calls);
    }
  }

  // ----- The run -----

  lemma GoodHistoryDeleting(start: Stored, newest: seq<ConfigMap>, expired: seq<ConfigMap>, names: seq<string>,
                            history: seq<Stored>, from: nat)
    requires Separated(start, newest, expired) && AllTrimmed(start, Uids(expired), history, from)
    ensures AllGood(start, newest, names, history, from)
  {
    forall k | from <= k < |history|
      ensures Good(start, newest, names, history[k])
    {
      GoodWhileDeleting(start, newest, expired, names, history[k]);
    }
  }

  lemma GoodHistoryCreating(start: Stored, newest: seq<ConfigMap>, expired: seq<ConfigMap>, next: nat,
                            names: seq<string>,
                            history: seq<Stored>, from: nat)
    requires Separated(start, newest, expired) && AllExtend(start - Uids(expired), next, names, history, from)
    ensures AllGood(start, newest, names, history, from)
  {
    forall k | from <= k < |history|
      ensures Good(start, newest, names, history[k])
    {
      GoodWhileCreating(start, newest, expired, next, names, history[k]);
    }
  }

  lemma GoodHistoryReplacing(start: Stored, newest: seq<ConfigMap>, expired: seq<ConfigMap>, next: nat,
                             names: seq<string>,
                             mid: Stored, uids: set<nat>, created: set<string>, history: seq<Stored>, from: nat)
    requires Separated(start, newest, expired) && forall u :: u in start ==> u < next
    requires Extends(start - Uids(expired), next, names, mid) && Tracks(start - Uids(expired), mid, uids, created)
    requires AllTrimmed(mid, ReplacedUids(newest, created), history, from)
    ensures AllGood(start, newest, names, history, from)
  {
    forall k | from <= k < |history|
      ensures Good(start, newest, names, history[k])
    {
      GoodWhileReplacing(start, newest, expired, next, names, mid, uids, created, history[k]);
    }
  }

  /** The part of the run that changes the cluster; `calls` are the calls it makes. */
  method Rotate(cluster: Cluster, names: seq<string>, newest: seq<ConfigMap>, expired: seq<ConfigMap>)
    returns (outcome: Outcome, ghost uids: set<nat>, ghost calls: seq<Call>)
    requires cluster.Valid() && Separated(cluster.live, newest, expired)
    modifies cluster
    ensures cluster.Valid() && Touched(outcome) && old(cluster.history) <= cluster.history
    ensures AllGood(old(cluster.live), newest, names, cluster.history, |old(cluster.history)|)
    ensures cluster.calls == old(cluster.calls) + calls
    ensures cluster.confirmed == old(cluster.confirmed) + uids && old(cluster.confirmed) !! uids
    ensures Rotates(outcome, old(cluster.live), old(cluster.next), names, newest, expired, cluster.live, uids, calls)
  {
    ghost var start, next, h0 := cluster.live, cluster.next, |cluster.history|;
    var deleted;
    ghost var deletes;
    deleted, deletes := DeleteExpired(cluster, expired);
    GoodHistoryDeleting(start, newest, expired, names, cluster.history, h0);
    if !deleted {
      return DeleteFailed, {}, deletes;
    }
    var certOk := cluster.VerifyCert();
    if !certOk {
      AddCalls(old(cluster.calls), deletes, [CertCall(false)]);
      return CertRenewed, {}, deletes + [CertCall(false)];
    }
    ghost var h1 := |cluster.history|;
    var created;
    ghost var scrapes, more;
    created, uids, scrapes := CreateProfiles(cluster, names);
    ghost var p, h2 := Progress(cluster.live, uids, created, scrapes), |cluster.history|;
    GoodHistoryCreating(start, newest, expired, next, names, cluster.history, h1);
    MakesScraped(start - Uids(expired), next, names, p);
    var replaced;
    replaced, more := DeleteReplaced(cluster, newest, created, scrapes);
    GoodHistoryReplacing(start, newest, expired, next, names, p.live, uids, created, cluster.history, h2);
    JoinCalls(old(cluster.calls), deletes, [CertCall(true)], scrapes, more);
    calls := deletes + [CertCall(true)] + scrapes + more;
    outcome := if replaced then Completed else ReplaceFailed;
    assert Replacing(outcome, newest, p, cluster.live, more);
  }

  /** `live` is what a run with arguments `names` may leave behind, wherever it stops. */
  ghost predicate MayLeave(start: Stored, names: seq<string>, live: Stored) {
    live == start || exists newest: seq<ConfigMap> ::
      (forall u :: u in start ==> HasName(newest, start[u].generateName)) && Good(start, newest, names, live)
  }

  lemma AllMayBeLeft(start: Stored, newest: seq<ConfigMap>, names: seq<string>, before: seq<Stored>,
                     history: seq<Stored>)
    requires AllGood(start, newest, names, history, |before|) && before <= history
    requires |before| > 0 && before[|before| - 1] == start
    requires forall u :: u in start ==> HasName(newest, start[u].generateName)
    ensures forall k :: |before| <= k < |history| ==> MayLeave(start, names, history[k])
    ensures MayLeave(start, names, history[|history| - 1])
  {
    forall k | |before| <= k < |history|
      ensures MayLeave(start, names, history[k])
    {
      assert Good(start, newest, names, history[k]);
    }
  }

  /** What a run that lists the profiles found and did: the profiles as listed, the newest and the expired of them,
      the profiles confirmed, and the calls after the listing. */
  datatype Collected = Collected(items: seq<ConfigMap>, newest: seq<ConfigMap>, expired: seq<ConfigMap>, uids: set<nat>,
                                 calls: seq<Call>)

  ghost predicate Collects(outcome: Outcome, start: Stored, names: seq<string>, live: Stored, c: Collected) {
    && Lists(c.items, start) && (forall k :: 0 <= k < |c.newest| ==> HasNewest(c.items, c.newest[k]))
    && Separated(start, c.newest, c.expired)
    && Rotated(outcome, start, names, c.newest, c.expired, live, c.uids, c.calls)
  }

  /** Lists the stored profiles and separates them. */
  method ListSeparated(cluster: Cluster)
    returns (listed: bool, items: seq<ConfigMap>, newest: seq<ConfigMap>, expired: seq<ConfigMap>)
    requires cluster.Valid()
    modifies cluster`calls
    ensures cluster.Valid() && cluster.calls == old(cluster.calls) + [ListCall(listed)]
    ensures listed ==> Lists(items, cluster.live) && Separated(cluster.live, newest, expired)
    ensures listed ==> forall k :: 0 <= k < |newest| ==> HasNewest(items, newest[k])
  {
    listed, items := cluster.List();
    newest, expired := SeparateNewestAndExpired(items);
    if listed {
      ListedIsSeparated(cluster.live, items, newest, expired);
    }
  }

  /** The run from the listing on. */
  method Collect(cluster: Cluster, names: seq<string>) returns (outcome: Outcome, ghost c: Collected)
    requires cluster.Valid()
    modifies cluster
    ensures cluster.Valid() && old(cluster.history) <= cluster.history && (outcome.ListFailed? || Touched(outcome))
    ensures outcome.ListFailed? ==>
              && cluster.live == old(cluster.live) && cluster.history == old(cluster.history)
              && cluster.confirmed == old(cluster.confirmed) && cluster.calls == old(cluster.calls) + [ListCall(false)]
    ensures Touched(outcome) ==>
              && Collects(outcome, old(cluster.live), names, cluster.live, c)
              && AllGood(old(cluster.live), c.newest, names, cluster.history, |old(cluster.history)|)
              && cluster.confirmed == old(cluster.confirmed) + c.uids && old(cluster.confirmed) !! c.uids
              && cluster.calls == old(cluster.calls) + [ListCall(true)] + c.calls
  {
    ghost var start, next := cluster.live, cluster.next;
    var listed, items, newest, expired := ListSeparated(cluster);
    if !listed {
      return ListFailed, Collected([], [], [], {}, []);
    }
    ghost var uids, calls;
    outcome, uids, calls := Rotate(cluster, names, newest, expired);
    RotatesRotated(outcome, start, next, names, newest, expired, cluster.live, uids, calls);
    c := Collected(items, newest, expired, uids, calls);
  }

  /** The names that arguments parse to. */
  ghost function NamesOf(args: seq<string>, parse: string -> Option<string>): seq<string> {
    seq(|args|, i requires 0 <= i < |args| => if parse(args[i]).Some? then parse(args[i]).value else "")
  }

  method ParseArguments(args: seq<string>, parse: string -> Option<string>) returns (names: Option<seq<string>>)
    ensures names.Some? <==> forall i :: 0 <= i < |args| ==> parse(args[i]).Some?
    ensures names.Some? ==> |names.value| == |args| && forall i :: 0 <= i < |args| ==>
                                                         parse(args[i]) == Some(names.value[i])
  {
    var parsed: seq<string> := [];
    for i := 0 to |args|
      invariant |parsed| == i && forall j :: 0 <= j < i ==> parse(args[j]) == Some(parsed[j])
    {
      var a := parse(args[i]);
      if a.None? {
        return None;
      }
      parsed := parsed + [a.value];
    }
    return Some(parsed);
  }

  /** What a run reports before it has listed the profiles. */
  ghost predicate Refused(outcome: Outcome, args: seq<string>, parse: string -> Option<string>, config: Option<bool>) {
    && (outcome.NoArguments? <==> args == [])
    && (outcome.ConfigError? <==> args != [] && config == None)
    && (outcome.Disabled? <==> args != [] && config == Some(true))
    && (outcome.BadArgument? <==> args != [] && config == Some(false) && exists a :: a in args && parse(a) == None)
  }

  /** One run of the job. `config` is the job's configuration: an error, or whether the job is disabled.
      Every state the run leaves behind, at whatever call it stops or fails, keeps a profile for every name
      that had one and respects the growth bound. A run that is refused calls nothing. A run that lists the
      profiles makes the calls that `Traced` describes; each name has as many profiles confirmed in this run as
      creations of it succeeded, and one for each argument naming it if every call succeeded; and after a
      completed run a name has the profiles made for it in this run, plus its old newest one if no new one
      was confirmed. */
  method Run(cluster: Cluster, args: seq<string>, parse: string -> Option<string>, config: Option<bool>)
    returns (outcome: Outcome, ghost names: seq<string>, ghost c: Collected)
    requires cluster.Valid()
    modifies cluster
    ensures cluster.Valid() && old(cluster.history) <= cluster.history
    ensures Refused(outcome, args, parse, config)
    ensures !Touched(outcome) ==>
              && cluster.live == old(cluster.live) && cluster.history == old(cluster.history)
              && cluster.confirmed == old(cluster.confirmed)
              && cluster.calls == old(cluster.calls) + if outcome.ListFailed? then [ListCall(false)] else []
    ensures Touched(outcome) ==>
              && names == NamesOf(args, parse) && (forall i :: 0 <= i < |args| ==> parse(args[i]) == Some(names[i]))
              && Collects(outcome, old(cluster.live), names, cluster.live, c)
              && AllGood(old(cluster.live), c.newest, names, cluster.history, |old(cluster.history)|)
              && cluster.confirmed == old(cluster.confirmed) + c.uids && old(cluster.confirmed) !! c.uids
              && cluster.calls == old(cluster.calls) + [ListCall(true)] + c.calls
    ensures MayLeave(old(cluster.live), NamesOf(args, parse), cluster.live)
    ensures forall k :: |old(cluster.history)| <= k < |cluster.history| ==>
              MayLeave(old(cluster.live), NamesOf(args, parse), cluster.history[k])
  {
    names, c := [], Collected([], [], [], {}, []);
    if |args| == 0 {
      return NoArguments, names, c;
    }
    if config.None? {
      return ConfigError, names, c;
    }
    if config.value {
      return Disabled, names, c;
    }
    var parsed := ParseArguments(args, parse);
    if parsed.None? {
      return BadArgument, names, c;
    }
    names := parsed.value;
    assert names == NamesOf(args, parse);
    outcome, c := Collect(cluster, parsed.value);
    if Touched(outcome) {
      AllMayBeLeft(old(cluster.live), c.newest, names, old(cluster.history), cluster.history);
    }
  }

  // ----- Any number of runs -----

  lemma MayLeaveKeeps(start: Stored, names: seq<string>, live: Stored, name: string)
    requires MayLeave(start, names, live)
    ensures Count(start, name) > 0 ==> Count(live, name) > 0
    ensures Count(live, name) <= Count(start, name) || Count(live, name) <= 1 + Mentions(names, name)
  {
    if live != start && Count(start, name) > 0 {
      var newest: seq<ConfigMap> :|
        (forall u :: u in start ==> HasName(newest, start[u].generateName)) && Good(start, newest, names, live);
      var u :| u in Named(start, name);
      assert HasName(newest, start[u].generateName);
      var k :| 0 <= k < |newest| && newest[k].generateName == name;
      if newest[k].uid in live && live[newest[k].uid] == newest[k] {
        assert newest[k].uid in Named(live, name);
      } else {
        var v :| v in live && v !in start && live[v].generateName == name;
        assert v in Named(live, name);
      }
    }
  }

  /** Over any number of runs, each stopped or failing anywhere, a name never loses its last profile and never
      has more than it began with, or than one plus the most arguments naming it in one run. */
  lemma {:induction false} ManyRuns(states: seq<Stored>, runs: seq<seq<string>>, name: string, most: nat)
    requires |states| == |runs| + 1
    requires forall k :: 0 <= k < |runs| ==>
               MayLeave(states[k], runs[k], states[k + 1]) && Mentions(runs[k], name) <= most
    ensures Count(states[0], name) > 0 ==> Count(states[|runs|], name) > 0
    ensures Count(states[|runs|], name) <= Count(states[0], name) || Count(states[|runs|], name) <= 1 + most
  {
    if |runs| != 0 {
      var n := |runs| - 1;
      ManyRuns(states[..|runs|], runs[..n], name, most);
      MayLeaveKeeps(states[n], runs[n], states[n + 1], name);
    }
  }

  /** What any number of runs from `start` may lead to: no name that had a profile is without one, and no name has
      more than it had, or than one plus the most arguments naming it in one run. */
  ghost predicate ManyKeep(start: Stored, runs: seq<seq<string>>, live: Stored) {
    forall name: string, most: nat :: AtMost(runs, name, most) ==> Keeps(start, live, name, most)
  }

  ghost predicate AtMost(runs: seq<seq<string>>, name: string, most: nat) {
    forall k :: 0 <= k < |runs| ==> Mentions(runs[k], name) <= most
  }

  ghost predicate Keeps(start: Stored, live: Stored, name: string, most: nat) {
    && (Count(start, name) > 0 ==> Count(live, name) > 0)
    && (Count(live, name) <= Count(start, name) || Count(live, name) <= 1 + most)
  }

  /** One run after another. */
  ghost predicate Chained(states: seq<Stored>, runs: seq<seq<string>>) {
    |states| == |runs| + 1 && forall k :: 0 <= k < |runs| ==> MayLeave(states[k], runs[k], states[k + 1])
  }

  lemma ChainedKeep(states: seq<Stored>, runs: seq<seq<string>>)
    requires Chained(states, runs)
    ensures ManyKeep(states[0], runs, states[|runs|])
  {
    forall name: string, most: nat | AtMost(runs, name, most)
      ensures Keeps(states[0], states[|runs|], name, most)
    {
      ManyRuns(states, runs, name, most);
    }
  }

  lemma ChainedNext(states: seq<Stored>, runs: seq<seq<string>>, names: seq<string>, live: Stored)
    requires Chained(states, runs) && MayLeave(states[|runs|], names, live)
    ensures Chained(states + [live], runs + [names]) && ManyKeep(states[0], runs + [names], live)
  {
    ChainedKeep(states + [live], runs + [names]);
  }

  /** More runs allow more. */
  lemma ManyKeepMore(start: Stored, runs: seq<seq<string>>, names: seq<string>, live: Stored)
    requires ManyKeep(start, runs, live)
    ensures ManyKeep(start, runs + [names], live)
  {
    forall name: string, most: nat | AtMost(runs + [names], name, most)
      ensures AtMost(runs, name, most)
    {
      assert forall k :: 0 <= k < |runs| ==> (runs + [names])[k] == runs[k];
    }
  }

  ghost predicate AllKeep(start: Stored, runs: seq<seq<string>>, history: seq<Stored>, from: nat) {
    from <= |history| && forall k :: from <= k < |history| ==> ManyKeep(start, runs, history[k])
  }

  lemma AllKeepNext(states: seq<Stored>, runs: seq<seq<string>>, names: seq<string>, history: seq<Stored>, from: nat,
                    history': seq<Stored>)
    requires Chained(states, runs) && AllKeep(states[0], runs, history, from) && history <= history'
    requires forall k :: |history| <= k < |history'| ==> MayLeave(states[|runs|], names, history'[k])
    ensures AllKeep(states[0], runs + [names], history', from)
  {
    forall k | from <= k < |history'|
      ensures ManyKeep(states[0], runs + [names], history'[k])
    {
      if k < |history| {
        ManyKeepMore(states[0], runs, names, history[k]);
      } else {
        ChainedNext(states, runs, names, history'[k]);
      }
    }
  }

  /** The arguments of each run, parsed. */
  ghost function AllNames(runs: seq<seq<string>>, parse: string -> Option<string>): seq<seq<string>> {
    seq(|runs|, i requires 0 <= i < |runs| => NamesOf(runs[i], parse))
  }

  /** The job as it is scheduled again and again, each time with its own arguments and configuration. Every state
      that any of the runs goes through, and the last one, keeps a profile for every name that had one at the
      start and respects the growth bound. A run that is killed leaves what it would have left had all its
      remaining calls failed without effect, so the next run starting from there is covered too. */
  method RunMany(cluster: Cluster, runs: seq<seq<string>>, parse: string -> Option<string>)
    returns (outcomes: seq<Outcome>)
    requires cluster.Valid()
    modifies cluster
    ensures cluster.Valid() && |outcomes| == |runs| && old(cluster.history) <= cluster.history
    ensures ManyKeep(old(cluster.live), AllNames(runs, parse), cluster.live)
    ensures AllKeep(old(cluster.live), AllNames(runs, parse), cluster.history, |old(cluster.history)|)
  {
    outcomes := [];
    ghost var states := [cluster.live];
    ghost var start, from := cluster.live, |cluster.history|;
    for i := 0 to |runs|
      invariant cluster.Valid() && |outcomes| == i && old(cluster.history) <= cluster.history
      invariant Chained(states, AllNames(runs[..i], parse)) && states[0] == start && states[i] == cluster.live
      invariant AllKeep(start, AllNames(runs[..i], parse), cluster.history, from)
    {
      ghost var names, history := AllNames(runs[..i], parse), cluster.history;
      var config: Option<bool> := *;
      ghost var parsed, c;
      var outcome;
      outcome, parsed, c := Run(cluster, runs[i], parse, config);
      assert AllNames(runs[..i + 1], parse) == names + [NamesOf(runs[i], parse)];
      ChainedNext(states, names, NamesOf(runs[i], parse), cluster.live);
      AllKeepNext(states, names, NamesOf(runs[i], parse), history, from, cluster.history);
      states, outcomes := states + [cluster.live], outcomes + [outcome];
    }
    assert runs[..|runs|] == runs;
    ChainedKeep(states, AllNames(runs, parse));
  }
}
