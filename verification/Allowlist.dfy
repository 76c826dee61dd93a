/** Device groups and the app allowlist: three tables, the admin operations on them, and matching. */
module Allowlist {
  import opened Common

  /** No group means the entry applies to every device. */
  datatype Entry = Entry(group: Option<nat>, publisher: string, filename: string)

  datatype Tables = Tables(groups: map<nat, string>, devices: map<Uuid, Option<nat>>, entries: map<nat, Entry>)

  datatype Operation =
    | Enroll(device: Uuid)
    | CreateGroup(group: nat, name: string)
    | DeleteGroup(group: nat)
    | AssignGroup(device: Uuid, target: Option<nat>)
    | CreateEntry(id: nat, entry: Entry)
    | DeleteEntry(id: nat)

  predicate GroupExists(t: Tables, group: Option<nat>) {
    group.None? || group.value in t.groups
  }

  /**
   * One committed transaction; a refused one changes nothing. Deleting a group lets the foreign keys
   * act: ON DELETE SET NULL on devices, ON DELETE CASCADE on entries.
   */
  function Apply(t: Tables, op: Operation): Tables {
    match op
    case Enroll(d) =>
      if d in t.devices then t else t.(devices := t.devices[d := None])
    case CreateGroup(g, name) =>
      if g in t.groups || name in t.groups.Values then t else t.(groups := t.groups[g := name])
    case DeleteGroup(g) =>
      Tables(t.groups - {g},
             map d | d in t.devices :: if t.devices[d] == Some(g) then None else t.devices[d],
             map id | id in t.entries && t.entries[id].group != Some(g) :: t.entries[id])
    case AssignGroup(d, g) =>
      if d in t.devices && GroupExists(t, g) then t.(devices := t.devices[d := g]) else t
    case CreateEntry(id, e) =>
      if id !in t.entries && GroupExists(t, e.group) then t.(entries := t.entries[id := e]) else t
    case DeleteEntry(id) => t.(entries := t.entries - {id})
  }

  function GroupOf(t: Tables, d: Uuid): Option<nat> {
    if d in t.devices then t.devices[d] else None
  }

  predicate EntryMatches(e: Entry, group: Option<nat>, publisher: string, filename: string) {
    && e.publisher == publisher && e.filename == filename
    && (e.group.None? || e.group == group)
  }

  function MatchingIds(t: Tables, group: Option<nat>, publisher: string, filename: string): set<nat> {
    set id | id in t.entries && EntryMatches(t.entries[id], group, publisher, filename)
  }

  /** `find_match` answers with any one matching row, and with none only when there is none. */
  predicate IsFindMatchAnswer(t: Tables, group: Option<nat>, publisher: string, filename: string, hit: Option<nat>) {
    match hit
    case Some(id) => id in MatchingIds(t, group, publisher, filename)
    case None => MatchingIds(t, group, publisher, filename) == {}
  }

  /** A match, field by field: same publisher and filename, and an entry for every device or for this group. */
  lemma MatchesIff(t: Tables, group: Option<nat>, publisher: string, filename: string, id: nat)
    ensures id in MatchingIds(t, group, publisher, filename)
       <==> id in t.entries && Covers(t.entries[id], group, publisher, filename)
  {
  }

  /** Every group reference names an existing group, and no two groups share a name. */
  ghost predicate Valid(t: Tables) {
    && (forall d :: d in t.devices ==> GroupExists(t, t.devices[d]))
    && (forall id :: id in t.entries ==> GroupExists(t, t.entries[id].group))
    && (forall g, h :: g in t.groups && h in t.groups && t.groups[g] == t.groups[h] ==> g == h)
  }

  lemma ApplyKeepsValid(t: Tables, op: Operation)
    requires Valid(t)
    ensures Valid(Apply(t, op))
  {
    var t' := Apply(t, op);
    forall d | d in t'.devices ensures GroupExists(t', t'.devices[d]) {
    }
    forall id | id in t'.entries ensures GroupExists(t', t'.entries[id].group) {
    }
  }

  /** Deleting a group takes from a device's matches exactly the entries scoped to that group. */
  lemma DeleteGroupRemovesExactlyItsEntries(t: Tables, g: nat, d: Uuid, publisher: string, filename: string)
    ensures var t' := Apply(t, DeleteGroup(g));
            MatchingIds(t', GroupOf(t', d), publisher, filename) ==
            (set id | id in MatchingIds(t, GroupOf(t, d), publisher, filename) && t.entries[id].group != Some(g))
  {
  }

  function ApplyAll(t: Tables, ops: seq<Operation>): Tables
    decreases |ops|
  {
    if |ops| == 0 then t else ApplyAll(Apply(t, ops[0]), ops[1..])
  }

  /** The operations that may give a device a match: a new entry for the app, or a new group for the device. */
  predicate IsGrant(op: Operation, d: Uuid, publisher: string, filename: string) {
    match op
    case CreateEntry(_, e) => e.publisher == publisher && e.filename == filename
    case AssignGroup(device, _) => device == d
    case _ => false
  }

  /**
   * Over any run of operations without a grant for it, whatever else is deleted, created or re-moved
   * and whatever group ids are used again, a device and an app gain no match.
   */
  lemma {:induction false} OnlyGrantsAddMatches(
      t: Tables, ops: seq<Operation>, d: Uuid, publisher: string, filename: string)
    requires forall op :: op in ops ==> !IsGrant(op, d, publisher, filename)
    ensures var t' := ApplyAll(t, ops);
            MatchingIds(t', GroupOf(t', d), publisher, filename) <= MatchingIds(t, GroupOf(t, d), publisher, filename)
    decreases |ops|
  {
    if |ops| > 0 {
      assert ops[0] in ops;
      OnlyGrantsAddMatches(Apply(t, ops[0]), ops[1..], d, publisher, filename);
    }
  }

  /** A submission that read its device's group before that group was deleted gains nothing by it. */
  lemma StaleGroupMatchesOnlyGlobalEntries(t: Tables, g: nat, publisher: string, filename: string)
    ensures var t' := Apply(t, DeleteGroup(g));
            MatchingIds(t', Some(g), publisher, filename) == MatchingIds(t', None, publisher, filename)
  {
  }

  /** The entry is for this publisher and filename, and for every device or for this group. */
  predicate Covers(e: Entry, group: Option<nat>, publisher: string, filename: string) {
    e.publisher == publisher && e.filename == filename && (e.group == None || e.group == group)
  }

  /** A new entry adds itself where it covers, and a deleted one is gone everywhere; no other match changes. */
  lemma EntriesComeAndGo(t: Tables, id: nat, e: Entry, group: Option<nat>, publisher: string, filename: string)
    ensures var added := Apply(t, CreateEntry(id, e));
            var accepted := id !in t.entries && (e.group.Some? ==> e.group.value in t.groups);
            MatchingIds(added, group, publisher, filename)
            == MatchingIds(t, group, publisher, filename)
               + if accepted && Covers(e, group, publisher, filename) then {id} else {}
    ensures MatchingIds(Apply(t, DeleteEntry(id)), group, publisher, filename)
         == MatchingIds(t, group, publisher, filename) - {id}
  {
    var added := Apply(t, CreateEntry(id, e));
    forall i ensures i in MatchingIds(added, group, publisher, filename)
               <==> i in MatchingIds(t, group, publisher, filename)
                    || (i == id && id !in t.entries && (e.group.Some? ==> e.group.value in t.groups)
                        && Covers(e, group, publisher, filename)) {
    }
  }

  /** An enrolled device gets the group it is moved, if there is one, and loses a group that is deleted. */
  lemma GroupsComeAndGo(t: Tables, d: Uuid, g: nat, target: Option<nat>, other: Uuid)
    ensures var moved := Apply(t, AssignGroup(d, target));
            && GroupOf(moved, d) == (if d in t.devices && (target.Some? ==> target.value in t.groups) then target
                                        else GroupOf(t, d))
            && (other != d ==> GroupOf(moved, other) == GroupOf(t, other))
            && moved.groups == t.groups && moved.entries == t.entries
    ensures var deleted := Apply(t, DeleteGroup(g));
            && GroupOf(deleted, d) == (if GroupOf(t, d) == Some(g) then None else GroupOf(t, d))
            && deleted.devices.Keys == t.devices.Keys && deleted.groups.Keys == t.groups.Keys - {g}
            && (forall h :: h in deleted.groups ==> deleted.groups[h] == t.groups[h])
    ensures var joined := Apply(t, Enroll(d));
            joined == t.(devices := joined.devices) && d in joined.devices && GroupOf(joined, d) == GroupOf(t, d)
  {
  }

  /** A group is created under a fresh id and a name that no group has, and nothing else changes. */
  lemma CreatedGroup(t: Tables, g: nat, name: string)
    ensures var made := Apply(t, CreateGroup(g, name));
            && made == t.(groups := made.groups)
            && (forall h :: h in t.groups ==> h in made.groups && made.groups[h] == t.groups[h])
            && (g in made.groups <==> g in t.groups || forall h :: h in t.groups ==> t.groups[h] != name)
            && (g !in t.groups && g in made.groups ==> made.groups[g] == name)
            && (forall h :: h in made.groups && h != g ==> h in t.groups)
  {
  }
}
