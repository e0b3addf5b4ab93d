/** The host's per-group tables: numeric chat ids, titles, members, active groups, pending joins,
    pending leaves and pending reads, and the mark-and-sweep that a group snapshot runs over them. */
module GroupTables {
  import opened Common

  type Key = string

  /** The number of values of the `guint` that numbers chats. */
  const GUINT_SIZE: nat := 0x1_0000_0000

  /** `issued` counts the chat ids: the counter field is `issued` modulo the width of a `guint`. */
  datatype Tables = Tables(
    idsByKey: map<Key, nat>,
    keysById: map<nat, Key>,
    titles: map<Key, string>,
    members: map<Key, seq<string>>,
    active: set<Key>,
    joins: set<Key>,
    leaves: set<Key>,
    unread: set<(Key, nat)>,
    issued: nat)

  /** `seen` and `syncing` are the snapshot's mark set and its active flag. */
  datatype Host = Host(tables: Tables, seen: set<Key>, syncing: bool, complete: bool)

  function Start(): Host { Host(Tables(map[], map[], map[], map[], {}, {}, {}, {}, 1), {}, false, false) }

  function NextId(t: Tables): nat { t.issued % GUINT_SIZE }

  /** `signal_group_id`: the id of a key, allocated on first use; a nonempty title is remembered. */
  function Known(t: Tables, k: Key, title: string): Tables {
    var t1 :=
      if k in t.idsByKey then t
      else t.(idsByKey := t.idsByKey[k := NextId(t)], keysById := t.keysById[NextId(t) := k],
              issued := t.issued + 1);
    if title == "" then t1 else t1.(titles := t1.titles[k := title])
  }

  /** `signal_open_group`. */
  function Opened(t: Tables, k: Key, title: string): Tables {
    var t1 := Known(t, k, title);
    t1.(joins := t1.joins - {k})
  }

  /** `signal_deactivate_group`. */
  function Deactivated(t: Tables, k: Key): Tables {
    if k == "" then t
    else
      var t1 :=
        if k in t.idsByKey then t.(keysById := t.keysById - {t.idsByKey[k]}, idsByKey := t.idsByKey - {k})
        else t;
      t1.(active := t.active - {k}, joins := t.joins - {k}, leaves := t.leaves - {k},
          titles := t.titles - {k}, members := t.members - {k},
          unread := set r | r in t.unread && r.0 != k)
  }

  function DeactivatedAll(t: Tables, ks: seq<Key>): Tables {
    if ks == [] then t else Deactivated(DeactivatedAll(t, ks[..|ks| - 1]), ks[|ks| - 1])
  }

  function OpenedAll(t: Tables, ks: seq<Key>): Tables {
    if ks == [] then t else Opened(OpenedAll(t, ks[..|ks| - 1]), ks[|ks| - 1], "")
  }

  function MembersOf(t: Tables, k: Key): seq<string> { if k in t.members then t.members[k] else [] }

  // ----- the two id tables -----

  ghost predicate Inverse(t: Tables) {
    && (forall k :: k in t.idsByKey ==> t.idsByKey[k] in t.keysById && t.keysById[t.idsByKey[k]] == k)
    && forall i :: i in t.keysById ==> t.keysById[i] in t.idsByKey && t.idsByKey[t.keysById[i]] == i
  }

  /** No table mentions the key. */
  ghost predicate Absent(t: Tables, k: Key) {
    && k !in t.idsByKey && (forall i :: i in t.keysById ==> t.keysById[i] != k)
    && k !in t.titles && k !in t.members && k !in t.active && k !in t.joins && k !in t.leaves
    && forall r :: r in t.unread ==> r.0 != k
  }

  /** Every id in use was issued before the counter reached the end of its range. */
  ghost predicate Numbered(t: Tables) {
    Inverse(t) && forall i :: i in t.keysById ==> i < t.issued
  }

  /** `u` comes from `t` without giving any id already issued to another key. */
  ghost predicate IdsKept(t: Tables, u: Tables) {
    && t.issued <= u.issued
    && forall i :: i in u.keysById && i < t.issued ==> i in t.keysById && t.keysById[i] == u.keysById[i]
  }

  /** A new key keeps the tables inverse exactly when the next id is not in use: once the 32-bit
      counter has wrapped, it can take over the id of a live chat. */
  lemma AllocationInverseIff(t: Tables, k: Key, title: string)
    requires Inverse(t) && k !in t.idsByKey
    ensures Inverse(Known(t, k, title)) <==> NextId(t) !in t.keysById
  {
    var u := Known(t, k, title);
    if NextId(t) in t.keysById {
      var victim := t.keysById[NextId(t)];
      assert victim in u.idsByKey && u.keysById[u.idsByKey[victim]] != victim;
    }
  }

  lemma OpenedKeeps(t: Tables, k: Key, title: string)
    requires Numbered(t) && Opened(t, k, title).issued <= GUINT_SIZE
    ensures Numbered(Known(t, k, title)) && IdsKept(t, Known(t, k, title))
    ensures Numbered(Opened(t, k, title)) && IdsKept(t, Opened(t, k, title))
    ensures Opened(t, k, title).active == t.active
  {
    if k !in t.idsByKey {
      assert NextId(t) == t.issued;
      AllocationInverseIff(t, k, title);
    }
  }

  /** Opening a group leaves the other groups out of the tables they were out of. */
  lemma OpenedTouchesOne(t: Tables, k: Key, title: string)
    requires Numbered(t) && Opened(t, k, title).issued <= GUINT_SIZE
    ensures forall j :: j != k && Absent(t, j) ==> Absent(Opened(t, k, title), j)
  {
    assert k !in t.idsByKey ==> NextId(t) == t.issued;
  }

  lemma DeactivatedKeeps(t: Tables, k: Key)
    requires Numbered(t)
    ensures Numbered(Deactivated(t, k)) && IdsKept(t, Deactivated(t, k))
    ensures Deactivated(t, k).issued == t.issued
    ensures k != "" ==> Absent(Deactivated(t, k), k)
    ensures forall j :: Absent(t, j) ==> Absent(Deactivated(t, k), j)
  {
  }

  lemma {:induction false} DeactivatedAllKeeps(t: Tables, ks: seq<Key>)
    requires Numbered(t)
    ensures var u := DeactivatedAll(t, ks);
            && Numbered(u) && IdsKept(t, u) && u.issued == t.issued
            && forall k :: k in ks && k != "" ==> Absent(u, k)
  {
    if ks != [] {
      var front, last := ks[..|ks| - 1], ks[|ks| - 1];
      DeactivatedAllKeeps(t, front);
      DeactivatedKeeps(DeactivatedAll(t, front), last);
      assert forall k :: k in ks ==> k in front || k == last;
    }
  }

  lemma {:induction false} OpenedAllIssued(t: Tables, ks: seq<Key>)
    ensures t.issued <= OpenedAll(t, ks).issued
  {
    if ks != [] {
      OpenedAllIssued(t, ks[..|ks| - 1]);
    }
  }

  lemma {:induction false} OpenedAllKeeps(t: Tables, ks: seq<Key>)
    requires Numbered(t) && OpenedAll(t, ks).issued <= GUINT_SIZE
    ensures var u := OpenedAll(t, ks);
            && Numbered(u) && IdsKept(t, u) && u.active == t.active
            && forall j :: j !in ks && Absent(t, j) ==> Absent(u, j)
  {
    if ks != [] {
      var front, last := ks[..|ks| - 1], ks[|ks| - 1];
      OpenedAllKeeps(t, front);
      OpenedKeeps(OpenedAll(t, front), last, "");
      OpenedTouchesOne(OpenedAll(t, front), last, "");
      assert forall j :: j !in ks ==> j !in front && j != last;
    }
  }

  // ----- host events -----

  /** Hash tables are walked in no particular order: `stale` and `opens` list the keys met. */
  datatype Label =
    | BeginSync
    | AddGroup(key: Key, title: string)
    | AddGroupMember(key: Key, peer: string)
    | EndSync(authoritative: bool, stale: seq<Key>, opens: seq<Key>)
    | DeliverGroup(key: Key, title: string)
    | GroupLeft(key: Key)
    | ConfirmLeave(key: Key, queued: bool)
    | LeaveFailed(key: Key)
    | JoinChat(key: Key)
    | QueueRead(key: Key, message: nat)
    | FlushReads(sent: set<(Key, nat)>)
    | Recovering

  ghost predicate Lists(s: seq<Key>, keys: set<Key>) {
    Distinct(s) && forall k :: k in s <==> k in keys
  }

  lemma ListsAppend(s: seq<Key>, keys: set<Key>, k: Key)
    requires Lists(s, keys) && k !in keys
    ensures Lists(s + [k], keys + {k})
  {
    assert k !in s;
    assert forall i :: 0 <= i < |s| ==> s[i] in s;
  }

  ghost function Stale(h: Host): set<Key> {
    set k | k in h.tables.active && k != "" && k !in h.seen
  }

  /** The tables after the sweep and the new activity, before pending joins are opened. */
  function Swept(h: Host, authoritative: bool, stale: seq<Key>): Tables {
    var t := DeactivatedAll(h.tables, stale);
    t.(active := if authoritative then h.seen else t.active + h.seen)
  }

  ghost predicate Enabled(h: Host, a: Label) {
    match a
    case EndSync(authoritative, stale, opens) =>
      if !h.syncing then stale == [] && opens == []
      else
        && (if authoritative then Lists(stale, Stale(h)) else stale == [])
        && var t := Swept(h, authoritative, stale); Lists(opens, t.joins * t.active)
    case _ => true
  }

  function Ended(h: Host, authoritative: bool, stale: seq<Key>, opens: seq<Key>): Tables {
    var t := Swept(h, authoritative, stale);
    OpenedAll(t.(joins := if authoritative then {} else t.joins - t.active), opens)
  }

  function Apply(h: Host, a: Label): Host {
    var t := h.tables;
    match a
    case BeginSync => Host(t.(members := map[]), {}, true, false)
    case AddGroup(k, title) =>
      if k == "" then h
      else
        var t1 := Known(t, k, title);
        h.(tables := t1.(members := t1.members[k := MembersOf(t1, k)]),
           seen := if h.syncing then h.seen + {k} else h.seen)
    case AddGroupMember(k, peer) =>
      if k == "" || peer == "" then h
      else h.(tables := t.(members := t.members[k := MembersOf(t, k) + [peer]]))
    case EndSync(authoritative, stale, opens) =>
      if !h.syncing then h
      else Host(Ended(h, authoritative, stale, opens), {}, false, h.complete || authoritative)
    case DeliverGroup(k, title) =>
      if k == "" then h else h.(tables := Opened(t.(active := t.active + {k}), k, title))
    case GroupLeft(k) => h.(tables := Deactivated(t, k))
    case ConfirmLeave(k, queued) =>
      if h.complete && k in t.active && queued then h.(tables := t.(leaves := t.leaves + {k})) else h
    case LeaveFailed(k) => h.(tables := t.(leaves := t.leaves - {k}))
    case JoinChat(k) =>
      if k == "" then h
      else if h.complete && k in t.active then h.(tables := Opened(t, k, ""))
      else if !h.complete then h.(tables := t.(joins := t.joins + {k}))
      else if k in t.leaves then h
      else h.(tables := Opened(t, k, ""))
    case QueueRead(k, message) => h.(tables := t.(unread := t.unread + {(k, message)}))
    case FlushReads(sent) => h.(tables := t.(unread := t.unread - sent))
    case Recovering => h.(complete := false)
  }

  ghost predicate IsRun(states: seq<Host>, labels: seq<Label>) {
    && |states| == |labels| + 1
    && states[0] == Start()
    && forall i {:trigger labels[i]} :: 0 <= i < |labels| ==>
         Enabled(states[i], labels[i]) && states[i + 1] == Apply(states[i], labels[i])
  }

  /** The groups announced since the latest start of a snapshot. */
  function Announced(labels: seq<Label>): set<Key> {
    if labels == [] then {}
    else
      var before := Announced(labels[..|labels| - 1]);
      match labels[|labels| - 1]
      case BeginSync => {}
      case AddGroup(k, _) => if k == "" then before else before + {k}
      case _ => before
  }

  ghost predicate Inv(h: Host) {
    Numbered(h.tables) && 1 <= h.tables.issued && "" !in h.tables.active && "" !in h.seen
  }

  /** What the end of a snapshot does to every table. */
  lemma EndedEffect(h: Host, authoritative: bool, stale: seq<Key>, opens: seq<Key>)
    requires Inv(h) && h.syncing && Enabled(h, EndSync(authoritative, stale, opens))
    requires Ended(h, authoritative, stale, opens).issued <= GUINT_SIZE
    ensures var u := Ended(h, authoritative, stale, opens);
            && Numbered(u) && IdsKept(h.tables, u)
            && u.active == (if authoritative then h.seen else h.tables.active + h.seen)
            && (authoritative ==> forall k :: k in h.tables.active && k !in h.seen ==> Absent(u, k))
  {
    DeactivatedAllKeeps(h.tables, stale);
    var t := Swept(h, authoritative, stale);
    var t1 := t.(joins := if authoritative then {} else t.joins - t.active);
    OpenedAllIssued(t1, opens);
    OpenedAllKeeps(t1, opens);
    if authoritative {
      forall k | k in h.tables.active && k !in h.seen
        ensures Absent(Ended(h, authoritative, stale, opens), k)
      {
        assert k in stale;
        assert Absent(DeactivatedAll(h.tables, stale), k) && Absent(t1, k) && k !in opens;
      }
    }
  }

  lemma AddGroupKeeps(h: Host, k: Key, title: string)
    requires Inv(h) && Apply(h, AddGroup(k, title)).tables.issued <= GUINT_SIZE
    ensures var u := Apply(h, AddGroup(k, title)); Inv(u) && IdsKept(h.tables, u.tables)
  {
    if k != "" {
      OpenedKeeps(h.tables, k, title);
    }
  }

  lemma DeliverKeeps(h: Host, k: Key, title: string)
    requires Inv(h) && Apply(h, DeliverGroup(k, title)).tables.issued <= GUINT_SIZE
    ensures var u := Apply(h, DeliverGroup(k, title)); Inv(u) && IdsKept(h.tables, u.tables)
  {
    if k != "" {
      OpenedKeeps(h.tables.(active := h.tables.active + {k}), k, title);
    }
  }

  lemma JoinKeeps(h: Host, k: Key)
    requires Inv(h) && Apply(h, JoinChat(k)).tables.issued <= GUINT_SIZE
    ensures var u := Apply(h, JoinChat(k)); Inv(u) && IdsKept(h.tables, u.tables)
  {
    if Apply(h, JoinChat(k)).tables == Opened(h.tables, k, "") {
      OpenedKeeps(h.tables, k, "");
    }
  }

  lemma EndKeeps(h: Host, a: Label)
    requires Inv(h) && a.EndSync? && Enabled(h, a) && Apply(h, a).tables.issued <= GUINT_SIZE
    ensures Inv(Apply(h, a)) && IdsKept(h.tables, Apply(h, a).tables)
  {
    if h.syncing {
      EndedEffect(h, a.authoritative, a.stale, a.opens);
    }
  }

  lemma LeftKeeps(h: Host, k: Key)
    requires Inv(h)
    ensures var u := Apply(h, GroupLeft(k)); Inv(u) && IdsKept(h.tables, u.tables)
  {
    DeactivatedKeeps(h.tables, k);
  }

  lemma StepKeeps(h: Host, a: Label)
    requires Inv(h) && Enabled(h, a) && Apply(h, a).tables.issued <= GUINT_SIZE
    ensures Inv(Apply(h, a)) && IdsKept(h.tables, Apply(h, a).tables)
  {
    match a {
      case AddGroup(k, title) => AddGroupKeeps(h, k, title);
      case EndSync(_, _, _) => EndKeeps(h, a);
      case DeliverGroup(k, title) => DeliverKeeps(h, k, title);
      case GroupLeft(k) => LeftKeeps(h, k);
      case JoinChat(k) => JoinKeeps(h, k);
      case _ =>
    }
  }

  lemma StepIssues(h: Host, a: Label)
    ensures h.tables.issued <= Apply(h, a).tables.issued
  {
    if a.EndSync? {
      var t := Swept(h, a.authoritative, a.stale);
      DeactivatedAllIssued(h.tables, a.stale);
      OpenedAllIssued(t.(joins := if a.authoritative then {} else t.joins - t.active), a.opens);
    }
  }

  lemma {:induction false} DeactivatedAllIssued(t: Tables, ks: seq<Key>)
    ensures DeactivatedAll(t, ks).issued == t.issued
  {
    if ks != [] {
      DeactivatedAllIssued(t, ks[..|ks| - 1]);
    }
  }

  lemma {:induction false} RunInvariant(states: seq<Host>, labels: seq<Label>, n: nat)
    requires IsRun(states, labels) && n < |states| && states[n].tables.issued <= GUINT_SIZE
    ensures Inv(states[n])
  {
    if n > 0 {
      StepIssues(states[n - 1], labels[n - 1]);
      RunInvariant(states, labels, n - 1);
      StepKeeps(states[n - 1], labels[n - 1]);
    }
  }

  lemma {:induction false} SeenIsAnnounced(states: seq<Host>, labels: seq<Label>, n: nat)
    requires IsRun(states, labels) && n < |states|
    ensures states[n].syncing ==> states[n].seen == Announced(labels[..n])
  {
    if n > 0 {
      SeenIsAnnounced(states, labels, n - 1);
      assert labels[..n][..n - 1] == labels[..n - 1] && labels[..n][n - 1] == labels[n - 1];
    }
  }

  /** Over every run the two id tables are inverse to each other while at most `GUINT_SIZE` ids,
      counting the unused zero, have been issued. */
  lemma IdTablesInverse(states: seq<Host>, labels: seq<Label>, n: nat, key: Key, id: nat)
    requires IsRun(states, labels) && n < |states| && states[n].tables.issued <= GUINT_SIZE
    ensures var t := states[n].tables;
            (key in t.idsByKey && t.idsByKey[key] == id) <==> (id in t.keysById && t.keysById[id] == key)
  {
    RunInvariant(states, labels, n);
  }

  /** Ids are never reused: an id handed out by moment `m` still names the same group at any later
      moment at which it names one. */
  lemma {:induction false} IdsNeverReused(states: seq<Host>, labels: seq<Label>, m: nat, n: nat, id: nat)
    requires IsRun(states, labels) && m <= n < |states| && states[n].tables.issued <= GUINT_SIZE
    requires id < states[m].tables.issued && id in states[n].tables.keysById
    ensures id in states[m].tables.keysById
    ensures states[m].tables.keysById[id] == states[n].tables.keysById[id]
    decreases n - m
  {
    if m < n {
      IssuedGrows(states, labels, m, n - 1);
      StepIssues(states[n - 1], labels[n - 1]);
      RunInvariant(states, labels, n - 1);
      StepKeeps(states[n - 1], labels[n - 1]);
      IdsNeverReused(states, labels, m, n - 1, id);
    }
  }

  lemma {:induction false} IssuedGrows(states: seq<Host>, labels: seq<Label>, m: nat, n: nat)
    requires IsRun(states, labels) && m <= n < |states|
    ensures states[m].tables.issued <= states[n].tables.issued
    decreases n - m
  {
    if m < n {
      IssuedGrows(states, labels, m, n - 1);
      StepIssues(states[n - 1], labels[n - 1]);
    }
  }

  /** At the end of an authoritative snapshot the active groups are exactly the ones announced in
      it, and a group that was active and was not announced is gone from every table. */
  lemma AuthoritativeSyncSweeps(states: seq<Host>, labels: seq<Label>, n: nat, key: Key)
    requires IsRun(states, labels) && n < |labels| && states[n + 1].tables.issued <= GUINT_SIZE
    requires labels[n].EndSync? && labels[n].authoritative && states[n].syncing
    ensures states[n + 1].tables.active == Announced(labels[..n])
    ensures key in states[n].tables.active && key !in Announced(labels[..n])
            ==> Absent(states[n + 1].tables, key)
    ensures states[n + 1].complete && states[n + 1].tables.joins == {}
  {
    StepIssues(states[n], labels[n]);
    RunInvariant(states, labels, n);
    SeenIsAnnounced(states, labels, n);
    var h, a := states[n], labels[n];
    EndedEffect(h, true, a.stale, a.opens);
    OpenedAllJoins(Swept(h, true, a.stale).(joins := {}), a.opens);
  }

  // ----- who has a chat -----

  /** The id and the title of a group: an id once given stays, a nonempty title replaces the old. */
  lemma KnownEffect(t: Tables, k: Key, title: string)
    ensures var u := Known(t, k, title);
            && u.idsByKey.Keys == t.idsByKey.Keys + {k}
            && (forall j :: j in t.idsByKey ==> u.idsByKey[j] == t.idsByKey[j])
            && (k !in t.idsByKey ==> u.idsByKey[k] == NextId(t) && u.keysById == t.keysById[NextId(t) := k])
            && (title != "" ==> k in u.titles && u.titles[k] == title)
            && (forall j :: j != k || title == "" ==>
                  (j in u.titles <==> j in t.titles) && (j in t.titles ==> u.titles[j] == t.titles[j]))
            && u.joins == t.joins && u.active == t.active && u.leaves == t.leaves && u.members == t.members
  {
  }

  lemma OpenedHas(t: Tables, o: Key, k: Key)
    ensures var u := Opened(t, o, "");
            && (k in u.idsByKey <==> k == o || k in t.idsByKey)
            && (k in u.joins <==> k in t.joins && k != o)
  {
  }

  lemma {:induction false} OpenedAllHave(t: Tables, ks: seq<Key>, k: Key)
    ensures var u := OpenedAll(t, ks);
            && (k in u.idsByKey <==> k in ks || k in t.idsByKey)
            && (k in u.joins <==> k in t.joins && k !in ks)
  {
    if ks != [] {
      var front, last := ks[..|ks| - 1], ks[|ks| - 1];
      OpenedAllHave(t, front, k);
      OpenedHas(OpenedAll(t, front), last, k);
      assert ks == front + [last];
    }
  }

  lemma {:induction false} DeactivatedAllJoins(t: Tables, ks: seq<Key>, k: Key)
    requires forall x :: x in ks ==> x != ""
    ensures k in DeactivatedAll(t, ks).joins <==> k in t.joins && k !in ks
  {
    if ks != [] {
      var front, last := ks[..|ks| - 1], ks[|ks| - 1];
      assert ks == front + [last];
      assert forall x :: x in front ==> x in ks;
      DeactivatedAllJoins(t, front, k);
    }
  }

  /** The end of a snapshot opens every pending join of a group that is then active: the group has
      a chat id and the join is no longer pending. Other joins are dropped by an authoritative
      snapshot and kept by a cached one. */
  lemma SyncOpensJoins(h: Host, a: Label, k: Key)
    requires a.EndSync? && h.syncing && Enabled(h, a) && k in h.tables.joins
    ensures var u := Apply(h, a).tables;
            var active := if a.authoritative then h.seen else h.tables.active + h.seen;
            && (k in active ==> k in u.idsByKey && k !in u.joins)
            && (k !in active ==> (k in u.joins <==> !a.authoritative))
  {
    var t := Swept(h, a.authoritative, a.stale);
    DeactivatedAllJoins(h.tables, a.stale, k);
    OpenedAllHave(t.(joins := if a.authoritative then {} else t.joins - t.active), a.opens, k);
    assert t.active == if a.authoritative then h.seen else h.tables.active + h.seen;
    assert k in t.joins * t.active <==> k in a.opens;
  }

  /** What becomes of a join request: opened once the snapshot is complete unless the group is
      inactive and being left, which refuses it; deferred before that. */
  lemma JoinOutcomes(h: Host, k: Key)
    requires k != ""
    ensures var u := Apply(h, JoinChat(k));
            var refused := h.complete && k !in h.tables.active && k in h.tables.leaves;
            && (h.complete && !refused ==> k in u.tables.idsByKey && k !in u.tables.joins)
            && (refused ==> u == h)
            && (!h.complete ==> u == h.(tables := h.tables.(joins := h.tables.joins + {k})))
  {
  }

  /** A snapshot from the local cache only adds to the active groups. */
  lemma PreliminarySyncAdds(states: seq<Host>, labels: seq<Label>, n: nat)
    requires IsRun(states, labels) && n < |labels| && states[n + 1].tables.issued <= GUINT_SIZE
    requires labels[n].EndSync? && !labels[n].authoritative && states[n].syncing
    ensures states[n + 1].tables.active == states[n].tables.active + Announced(labels[..n])
    ensures states[n + 1].complete == states[n].complete
  {
    StepIssues(states[n], labels[n]);
    RunInvariant(states, labels, n);
    SeenIsAnnounced(states, labels, n);
    EndedEffect(states[n], false, labels[n].stale, labels[n].opens);
  }

  lemma {:induction false} OpenedAllJoins(t: Tables, ks: seq<Key>)
    ensures OpenedAll(t, ks).joins <= t.joins
  {
    if ks != [] {
      OpenedAllJoins(t, ks[..|ks| - 1]);
    }
  }
}

/** The objects that hold those tables. */
module GroupTableObjects {
  import opened GroupTables

  /** The mark set of a snapshot. */
  class ContactSync {
    var seen: set<string>
    var active: bool

    constructor ()
      ensures seen == {} && !active
    {
      seen, active := {}, false;
    }

    method Begin()
      modifies this
      ensures active && seen == {}
    {
      seen := {};
      active := true;
    }

    method Mark(identifier: string)
      modifies this`seen
      ensures seen == if active && identifier != "" then old(seen) + {identifier} else old(seen)
    {
      if !active || identifier == "" {
        return;
      }
      seen := seen + {identifier};
    }

    predicate ShouldRemove(identifier: string)
      reads this
    {
      active && identifier != "" && identifier !in seen
    }

    method End()
      modifies this
      ensures !active && seen == {}
    {
      active := false;
      seen := {};
    }
  }

  class ConnectionGroups {
    var idsByKey: map<Key, nat>
    var keysById: map<nat, Key>
    var titles: map<Key, string>
    var members: map<Key, seq<string>>
    var activeKeys: set<Key>
    var pendingJoins: set<Key>
    var pendingLeaves: set<Key>
    var pendingReads: set<(Key, nat)>
    var nextGroupId: nat
    var snapshotComplete: bool
    const sync: ContactSync
    ghost var issued: nat

    ghost predicate Valid()
      reads this
    {
      nextGroupId == issued % GUINT_SIZE
    }

    ghost function Tabled(): Tables
      reads this
    {
      Tables(idsByKey, keysById, titles, members, activeKeys, pendingJoins, pendingLeaves, pendingReads, issued)
    }

    ghost function Value(): Host
      reads this, sync
    {
      Host(Tabled(), sync.seen, sync.active, snapshotComplete)
    }

    constructor ()
      ensures Valid() && Value() == Start() && fresh(sync)
    {
      idsByKey, keysById, titles, members := map[], map[], map[], map[];
      activeKeys, pendingJoins, pendingLeaves, pendingReads := {}, {}, {}, {};
      nextGroupId, issued, snapshotComplete := 1, 1, false;
      sync := new ContactSync();
    }

    method GroupId(k: Key, title: string) returns (id: nat)
      requires Valid()
      modifies this
      ensures Valid() && Tabled() == Known(old(Tabled()), k, title) && snapshotComplete == old(snapshotComplete)
      ensures k in idsByKey && id == idsByKey[k]
    {
      if k in idsByKey {
        id := idsByKey[k];
      } else {
        id := nextGroupId;
        nextGroupId := (nextGroupId + 1) % GUINT_SIZE;
        issued := issued + 1;
        idsByKey := idsByKey[k := id];
        keysById := keysById[id := k];
      }
      if title != "" {
        titles := titles[k := title];
      }
    }

    method OpenGroup(k: Key, title: string) returns (id: nat)
      requires Valid()
      modifies this
      ensures Valid() && Tabled() == Opened(old(Tabled()), k, title) && snapshotComplete == old(snapshotComplete)
      ensures k in idsByKey && id == idsByKey[k]
    {
      id := GroupId(k, title);
      pendingJoins := pendingJoins - {k};
    }

    method RemovePendingReads(k: Key)
      modifies this`pendingReads
      ensures pendingReads == set r | r in old(pendingReads) && r.0 != k
    {
      var rest := pendingReads;
      while rest != {}
        invariant rest <= old(pendingReads)
        invariant pendingReads == set r | r in old(pendingReads) && (r in rest || r.0 != k)
        decreases |rest|
      {
        var read :| read in rest;
        rest := rest - {read};
        if read.0 == k {
          pendingReads := pendingReads - {read};
        }
      }
    }

    method DeactivateGroup(k: Key)
      requires Valid()
      modifies this
      ensures Valid() && Tabled() == Deactivated(old(Tabled()), k) && snapshotComplete == old(snapshotComplete)
    {
      if k == "" {
        return;
      }
      if k in idsByKey {
        keysById := keysById - {idsByKey[k]};
        idsByKey := idsByKey - {k};
      }
      activeKeys := activeKeys - {k};
      pendingJoins := pendingJoins - {k};
      pendingLeaves := pendingLeaves - {k};
      titles := titles - {k};
      members := members - {k};
      RemovePendingReads(k);
    }

    method BeginGroupSync()
      requires Valid()
      modifies this, sync
      ensures Valid() && Value() == Apply(old(Value()), BeginSync)
    {
      snapshotComplete := false;
      sync.Begin();
      members := map[];
    }

    method AddGroupEvent(k: Key, title: string)
      requires Valid()
      modifies this, sync
      ensures Valid() && Value() == Apply(old(Value()), AddGroup(k, title))
    {
      if k == "" {
        return;
      }
      var _ := GroupId(k, title);
      sync.Mark(k);
      if k !in members {
        members := members[k := []];
      } else {
        assert members[k := members[k]] == members;
      }
    }

    method AddGroupMemberEvent(k: Key, peer: string)
      requires Valid()
      modifies this
      ensures Valid() && Value() == Apply(old(Value()), AddGroupMember(k, peer))
      ensures k != "" && peer != "" ==>
              k in members && members[k] == (if k in old(members) then old(members)[k] else []) + [peer]
    {
      if k == "" || peer == "" {
        return;
      }
      if k !in members {
        members := members[k := []];
      }
      members := members[k := members[k] + [peer]];
    }

    /** The first walk of the sweep: active keys that the snapshot did not mention. */
    method StaleGroups() returns (stale: seq<Key>)
      requires sync.active
      ensures Lists(stale, Stale(Value()))
    {
      stale := [];
      var rest := activeKeys;
      while rest != {}
        invariant rest <= activeKeys
        invariant Lists(stale, set k | k in activeKeys && k !in rest && sync.ShouldRemove(k))
        decreases |rest|
      {
        var k :| k in rest;
        ghost var swept := set j | j in activeKeys && j !in rest && sync.ShouldRemove(j);
        rest := rest - {k};
        ghost var now := set j | j in activeKeys && j !in rest && sync.ShouldRemove(j);
        assert now == if sync.ShouldRemove(k) then swept + {k} else swept;
        if sync.ShouldRemove(k) {
          ListsAppend(stale, swept, k);
          stale := stale + [k];
        }
      }
    }

    /** `signal_group_sync_take_active_joins`. */
    method TakeActiveJoins(clearUnmatched: bool) returns (joins: seq<Key>)
      modifies this`pendingJoins
      ensures Lists(joins, old(pendingJoins) * activeKeys)
      ensures pendingJoins == if clearUnmatched then {} else old(pendingJoins) - activeKeys
    {
      joins := [];
      var rest := pendingJoins;
      ghost var before, taken := pendingJoins, {};
      while rest != {}
        invariant rest <= before && Lists(joins, taken)
        invariant forall k :: k in taken <==> k in before && k !in rest && k in activeKeys
        invariant pendingJoins == if clearUnmatched then before else before - taken
        decreases |rest|
      {
        var k :| k in rest;
        rest := rest - {k};
        if k in activeKeys {
          ListsAppend(joins, taken, k);
          taken := taken + {k};
          joins := joins + [k];
          if !clearUnmatched {
            pendingJoins := pendingJoins - {k};
          }
        }
      }
      assert taken == before * activeKeys;
      if clearUnmatched {
        pendingJoins := {};
      }
    }

    method DeactivateAll(stale: seq<Key>)
      requires Valid()
      modifies this
      ensures Valid() && Tabled() == DeactivatedAll(old(Tabled()), stale)
      ensures snapshotComplete == old(snapshotComplete)
    {
      for i := 0 to |stale|
        invariant Valid() && Tabled() == DeactivatedAll(old(Tabled()), stale[..i])
        invariant snapshotComplete == old(snapshotComplete)
      {
        DeactivateGroup(stale[i]);
        assert stale[..i + 1][..i] == stale[..i];
      }
      assert stale[..|stale|] == stale;
    }

    method OpenAll(joins: seq<Key>)
      requires Valid()
      modifies this
      ensures Valid() && Tabled() == OpenedAll(old(Tabled()), joins)
      ensures snapshotComplete == old(snapshotComplete)
    {
      for i := 0 to |joins|
        invariant Valid() && Tabled() == OpenedAll(old(Tabled()), joins[..i])
        invariant snapshotComplete == old(snapshotComplete)
      {
        var _ := OpenGroup(joins[i], "");
        assert joins[..i + 1][..i] == joins[..i];
      }
      assert joins[..|joins|] == joins;
    }

    /** The copy of the marked keys into the active ones. */
    method ActivateSeen()
      modifies this`activeKeys
      ensures activeKeys == old(activeKeys) + sync.seen
    {
      var rest := sync.seen;
      while rest != {}
        invariant rest <= sync.seen
        invariant activeKeys == old(activeKeys) + (sync.seen - rest)
        decreases |rest|
      {
        var k :| k in rest;
        rest := rest - {k};
        activeKeys := activeKeys + {k};
      }
    }

    /** The sweep and the new activity, before pending joins are looked at. */
    method Sweep(authoritative: bool) returns (stale: seq<Key>)
      requires Valid() && sync.active
      modifies this
      ensures Valid() && Tabled() == Swept(old(Value()), authoritative, stale)
      ensures snapshotComplete == old(snapshotComplete)
      ensures if authoritative then Lists(stale, Stale(old(Value()))) else stale == []
    {
      stale := [];
      if authoritative {
        stale := StaleGroups();
        DeactivateAll(stale);
        activeKeys := {};
      }
      ActivateSeen();
    }

    method EndGroupSync(authoritative: bool) returns (stale: seq<Key>, opens: seq<Key>)
      requires Valid()
      modifies this, sync
      ensures Valid() && Enabled(old(Value()), EndSync(authoritative, stale, opens))
      ensures Value() == Apply(old(Value()), EndSync(authoritative, stale, opens))
    {
      stale, opens := [], [];
      if !sync.active {
        return;
      }
      stale := Sweep(authoritative);
      sync.End();
      if authoritative {
        snapshotComplete := true;
      }
      opens := TakeActiveJoins(authoritative);
      OpenAll(opens);
    }

    method DeliverGroupEvent(k: Key, title: string)
      requires Valid()
      modifies this
      ensures Valid() && Value() == Apply(old(Value()), DeliverGroup(k, title))
    {
      if k == "" {
        return;
      }
      activeKeys := activeKeys + {k};
      var _ := OpenGroup(k, title);
    }

    method ConfirmGroupLeave(k: Key, queued: bool)
      requires Valid()
      modifies this
      ensures Valid() && Value() == Apply(old(Value()), ConfirmLeave(k, queued))
    {
      if !(snapshotComplete && k in activeKeys) {
        return;
      }
      if k in pendingLeaves {
        assert pendingLeaves + {k} == pendingLeaves;
        return;
      }
      if queued {
        pendingLeaves := pendingLeaves + {k};
      }
    }

    method JoinChatRequest(k: Key)
      requires Valid()
      modifies this
      ensures Valid() && Value() == Apply(old(Value()), JoinChat(k))
    {
      if k == "" {
        return;
      }
      if snapshotComplete && k in activeKeys {
        var _ := OpenGroup(k, "");
        return;
      }
      if !snapshotComplete {
        pendingJoins := pendingJoins + {k};
        return;
      }
      if k in pendingLeaves {
        return;
      }
      var _ := OpenGroup(k, "");
    }
  }
}
