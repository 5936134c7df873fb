/** The table of logged work and its wire form. */
module StackAssignments {
  import opened Basics
  import opened Streams

  /** Network ids are byte strings; a logged job is a list of vertex lists. */
  type Name = Bytes
  type Job = seq<seq<int>>
  type Table = map<Name, Job>

  /** Looking up a client in an `unordered_map` gives an empty job if it is absent. */
  function JobOf(t: Table, client: Name): Job {
    if client in t then t[client] else []
  }

  predicate StorableTable(t: Table) {
    |t| < TWO_TO_31 && forall k :: k in t ==> Storable(k) && StorableArrays(t[k])
  }

  /** `order` lists the keys of `t` once each: the iteration order of the hash map. */
  ghost predicate Enumerates(order: seq<Name>, t: Table) {
    Distinct(order) && Elems(order) == t.Keys
  }

  ghost function EntriesBytes(t: Table, order: seq<Name>): Bytes
    requires StorableTable(t) && Elems(order) <= t.Keys
  {
    if order == [] then []
    else
      assert order[0] in Elems(order);
      assert Elems(order[1..]) <= Elems(order);
      StringBytes(order[0]) + IntArrayArrayBytes(t[order[0]]) + EntriesBytes(t, order[1..])
  }

  /** The bytes of a table in a given iteration order. */
  ghost function TableBytes(t: Table, order: seq<Name>): Bytes
    requires StorableTable(t) && Enumerates(order, t)
  {
    OrderSize(t, order);
    Int32Bytes(|order|) + EntriesBytes(t, order)
  }

  lemma OrderSize(t: Table, order: seq<Name>)
    requires Enumerates(order, t)
    ensures |order| == |t|
  {
    DistinctSize(order);
  }

  /** One entry: a name and a job. */
  function ReadEntry(r: Bytes): Read<(Name, Job)> {
    match ReadString(r)
    case None => None
    case Some((name, afterName)) =>
      match ReadIntArrayArray(afterName)
      case None => None
      case Some((job, afterJob)) => Some(((name, job), afterJob))
  }

  /** Reading `n` entries into the table `acc`. */
  function ReadEntries(r: Bytes, n: int, acc: Table): Read<Table>
    decreases n
  {
    if n <= 0 then Some((acc, r))
    else
      match ReadEntry(r)
      case None => None
      case Some(((name, job), rest)) => ReadEntries(rest, n - 1, acc[name := job])
  }

  function ReadTable(r: Bytes, acc: Table): Read<Table> {
    match ReadInt32(r)
    case None => None
    case Some((count, rest)) => ReadEntries(rest, count, acc)
  }

  lemma EntryFirst(r: Bytes, n: int, acc: Table)
    requires n > 0 && ReadEntries(r, n, acc).Some?
    ensures ReadEntry(r).Some?
    ensures var ((name, job), rest) := ReadEntry(r).value;
            ReadEntries(r, n, acc) == ReadEntries(rest, n - 1, acc[name := job])
  {
  }

  class StackAssignment {
    var assignments: Table

    constructor ()
      ensures assignments == map[]
    {
      assignments := map[];
    }

    /** `for each` over the hash map visits its keys in some order, given here. */
    method Serialize(bos: ByteOutputStream, order: seq<Name>)
      requires StorableTable(assignments) && Enumerates(order, assignments)
      modifies bos
      ensures bos.data == old(bos.data) + TableBytes(assignments, order)
    {
      OrderSize(assignments, order);
      var count := |order|;
      bos.PutInt32(count);
      SeqAssoc(old(bos.data), Int32Bytes(|order|), EntriesBytes(assignments, order));
      for i := 0 to |order|
        invariant Elems(order[i..]) <= assignments.Keys
        invariant bos.data + EntriesBytes(assignments, order[i..])
               == old(bos.data) + TableBytes(assignments, order)
      {
        var each := order[i];
        EntriesFrom(assignments, order, i);
        AppendEntry(bos.data, StringBytes(each), IntArrayArrayBytes(assignments[each]),
                    EntriesBytes(assignments, order[i + 1..]));
        bos.PutString(each);
        bos.PutIntArrayArray(assignments[each]);
      }
      assert bos.data + [] == bos.data;
    }

    method Deserialize(bis: ByteInputStream)
      requires bis.Valid() && ReadTable(bis.Rest(), assignments).Some?
      modifies this, bis
      ensures bis.Valid()
      ensures ReadTable(old(bis.Rest()), old(assignments)) == Some((assignments, bis.Rest()))
    {
      ghost var goal := ReadTable(bis.Rest(), assignments);
      var count: int := bis.NextInt32();
      var i: int := 0;
      while i < count
        invariant 0 <= i && (0 <= count ==> i <= count) && bis.Valid()
        invariant goal.Some? && ReadEntries(bis.Rest(), count - i, assignments) == goal
      {
        EntryFirst(bis.Rest(), count - i, assignments);
        DeserializeEntry(bis);
        i := i + 1;
      }
    }

    /** The body of that loop. */
    method DeserializeEntry(bis: ByteInputStream)
      requires bis.Valid() && ReadEntry(bis.Rest()).Some?
      modifies this, bis
      ensures bis.Valid()
      ensures var ((name, job), rest) := ReadEntry(old(bis.Rest())).value;
              assignments == old(assignments)[name := job] && bis.Rest() == rest
    {
      var name := bis.NextString();
      var job := bis.NextIntArrayArray();
      assignments := assignments[name := job];
    }

    /** `operator[]` inserts an empty job for an absent client before returning a reference to it. */
    method GetAssignment(client: Name) returns (job: Job)
      modifies this
      ensures job == JobOf(old(assignments), client)
      ensures assignments == old(assignments)[client := job]
    {
      if client !in assignments {
        assignments := assignments[client := []];
      }
      job := assignments[client];
    }

    /** `operator[]` on a client that is there. */
    method Lookup(client: Name) returns (job: Job)
      requires client in assignments
      ensures job == assignments[client]
    {
      job := assignments[client];
    }

    /** Assigning through that reference. */
    method SetAssignment(client: Name, job: Job)
      modifies this
      ensures assignments == old(assignments)[client := job]
    {
      assignments := assignments[client := job];
    }

    method Update(assign: StackAssignment)
      requires assign != this
      modifies this
      ensures assignments == old(assignments) + assign.assignments
    {
      var rest := assign.assignments.Keys;
      while rest != {}
        invariant rest <= assign.assignments.Keys
        invariant assign.assignments == old(assign.assignments)
        invariant assignments == old(assignments) + (map k | k in assign.assignments && k !in rest :: assign.assignments[k])
        decreases |rest|
      {
        var each :| each in rest;
        rest := rest - {each};
        assignments := assignments[each := assign.assignments[each]];
      }
    }

    method Remove(client: Name)
      modifies this
      ensures assignments == old(assignments) - {client}
    {
      assignments := assignments - {client};
    }
  }

  /** The entries from position `i` on are that client's name, right before its job, and the later ones. */
  lemma EntriesFrom(t: Table, order: seq<Name>, i: nat)
    requires StorableTable(t) && i < |order| && Elems(order[i..]) <= t.Keys
    ensures order[i] in t && Elems(order[i + 1..]) <= t.Keys
    ensures EntriesBytes(t, order[i..])
         == StringBytes(order[i]) + IntArrayArrayBytes(t[order[i]]) + EntriesBytes(t, order[i + 1..])
  {
    assert order[i..][0] == order[i] && order[i..][1..] == order[i + 1..];
    assert order[i] in Elems(order[i..]);
    assert Elems(order[i + 1..]) <= Elems(order[i..]);
  }

  lemma AppendEntry(data: Bytes, name: Bytes, job: Bytes, rest: Bytes)
    ensures data + (name + job + rest) == data + name + job + rest
  {
  }

  // ---------- round trip ----------

  /** What reading the entries of `order` leaves in the table: names are cut at their first NUL. */
  ghost function Inserted(acc: Table, t: Table, order: seq<Name>): Table
    requires Elems(order) <= t.Keys
    decreases |order|
  {
    if order == [] then acc
    else
      assert order[0] in Elems(order);
      assert Elems(order[1..]) <= Elems(order);
      Inserted(acc[UpToNul(order[0]) := t[order[0]]], t, order[1..])
  }

  lemma {:induction false} EntriesRoundTrip(t: Table, order: seq<Name>, acc: Table, post: Bytes)
    requires StorableTable(t) && Elems(order) <= t.Keys
    ensures ReadEntries(EntriesBytes(t, order) + post, |order|, acc) == Some((Inserted(acc, t, order), post))
    decreases |order|
  {
    if order == [] {
      assert EntriesBytes(t, order) + post == post;
    } else {
      var name := order[0];
      assert name in Elems(order);
      assert Elems(order[1..]) <= Elems(order);
      var rest := EntriesBytes(t, order[1..]) + post;
      SplitEntry(StringBytes(name), IntArrayArrayBytes(t[name]), EntriesBytes(t, order[1..]), post);
      StringRoundTrip(name, IntArrayArrayBytes(t[name]) + rest);
      IntArrayArrayRoundTrip(t[name], rest);
      EntriesRoundTrip(t, order[1..], acc[UpToNul(name) := t[name]], post);
    }
  }

  lemma SplitEntry(name: Bytes, job: Bytes, rest: Bytes, post: Bytes)
    ensures name + job + rest + post == name + (job + (rest + post))
  {
  }

  ghost function Restrict(t: Table, order: seq<Name>): Table {
    map k | k in t && k in order :: t[k]
  }

  lemma RestrictStep(acc: Table, t: Table, order: seq<Name>)
    requires order != [] && order[0] in t
    ensures acc[order[0] := t[order[0]]] + Restrict(t, order[1..]) == acc + Restrict(t, order)
  {
    assert order == [order[0]] + order[1..];
  }

  /** NUL-free names are read back as they are. */
  lemma {:induction false} InsertedAsIs(acc: Table, t: Table, order: seq<Name>)
    requires Elems(order) <= t.Keys && forall k :: k in order ==> 0 !in k
    ensures Inserted(acc, t, order) == acc + Restrict(t, order)
    decreases |order|
  {
    if order != [] {
      var name := order[0];
      assert name in Elems(order);
      assert Elems(order[1..]) <= Elems(order);
      UpToNulWhole(name);
      InsertedAsIs(acc[name := t[name]], t, order[1..]);
      RestrictStep(acc, t, order);
    }
  }

  /** A name with a NUL byte is never read back. */
  lemma {:induction false} InsertedNulFree(acc: Table, t: Table, order: seq<Name>)
    requires Elems(order) <= t.Keys && forall k :: k in acc ==> 0 !in k
    ensures forall k :: k in Inserted(acc, t, order) ==> 0 !in k
    decreases |order|
  {
    if order != [] {
      var name := order[0];
      assert name in Elems(order);
      assert Elems(order[1..]) <= Elems(order);
      UpToNulWhole(name);
      InsertedNulFree(acc[UpToNul(name) := t[name]], t, order[1..]);
    }
  }

  /** A negative length leaves the table as it is; a positive one enters the first pair before all others. */
  lemma ReadTableCount(r: Bytes, acc: Table)
    requires ReadInt32(r).Some?
    ensures var (count, rest) := ReadInt32(r).value;
            && (count <= 0 ==> ReadTable(r, acc) == Some((acc, rest)))
            && (count > 0 && ReadTable(r, acc).Some? ==>
                  && ReadEntry(rest).Some?
                  && var ((name, job), more) := ReadEntry(rest).value;
                     ReadTable(r, acc) == ReadEntries(more, count - 1, acc[name := job]))
  {
  }

  lemma TableIsRead(t: Table, order: seq<Name>, post: Bytes)
    requires StorableTable(t) && Enumerates(order, t)
    ensures ReadTable(TableBytes(t, order) + post, map[]) == Some((Inserted(map[], t, order), post))
  {
    OrderSize(t, order);
    SeqAssoc(Int32Bytes(|order|), EntriesBytes(t, order), post);
    Int32RoundTrip(|order|, EntriesBytes(t, order) + post);
    EntriesRoundTrip(t, order, map[], post);
  }

  /**
   * For every iteration order and whatever follows, reading a written table into an empty one
   * consumes exactly the written bytes, and gives the table back exactly if no name holds a NUL.
   */
  lemma TableRoundTrip(t: Table, order: seq<Name>, post: Bytes)
    requires StorableTable(t) && Enumerates(order, t)
    ensures ReadTable(TableBytes(t, order) + post, map[]).Some?
    ensures ReadTable(TableBytes(t, order) + post, map[]).value.1 == post
    ensures ReadTable(TableBytes(t, order) + post, map[]).value.0 == t <==> forall k :: k in t ==> 0 !in k
  {
    TableIsRead(t, order, post);
    var got := Inserted(map[], t, order);
    InsertedNulFree(map[], t, order);
    if forall k :: k in t ==> 0 !in k {
      assert forall k :: k in order <==> k in Elems(order);
      InsertedAsIs(map[], t, order);
      assert map[] + Restrict(t, order) == t;
    }
  }
}
