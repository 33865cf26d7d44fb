/** The browser's list of chat messages: batches arrive in any order, overlap and repeat, and are merged
    by id and sorted by time and id. */
module ChatState {
  import opened Sorting

  type MessageId = nat

  // Identifiers are numbered in the order their comparison gives them; at is the parsed creation time.
  datatype Message = Message(id: MessageId, author: nat, body: string, at: int)

  predicate Earlier(left: Message, right: Message) {
    left.at < right.at || (left.at == right.at && left.id < right.id)
  }

  // ---------- What the last writes leave ----------

  function LastWrites(writes: seq<Message>): map<MessageId, Message> {
    if writes == [] then map[]
    else LastWrites(writes[..|writes| - 1])[writes[|writes| - 1].id := writes[|writes| - 1]]
  }

  // The list shows exactly the messages of the map, in order.
  ghost predicate Shows(list: seq<Message>, kept: map<MessageId, Message>) {
    && Sorted(Earlier, list)
    && (forall m :: m in list <==> m.id in kept && kept[m.id] == m)
  }

  // ---------- The merge ----------

  // The insertion-ordered map of the source: setting a known key keeps its place.
  ghost predicate UniqueIds(entries: seq<Message>) {
    forall i, j :: 0 <= i < j < |entries| ==> entries[i].id != entries[j].id
  }

  ghost predicate Entries(entries: seq<Message>, kept: map<MessageId, Message>) {
    && UniqueIds(entries)
    && (forall m :: m in entries <==> m.id in kept && kept[m.id] == m)
  }

  function Put(entries: seq<Message>, m: Message): seq<Message> {
    if entries == [] then [m]
    else if entries[0].id == m.id then [m] + entries[1..]
    else [entries[0]] + Put(entries[1..], m)
  }

  function PutAll(entries: seq<Message>, writes: seq<Message>): seq<Message> {
    if writes == [] then entries
    else Put(PutAll(entries, writes[..|writes| - 1]), writes[|writes| - 1])
  }

  function Merged(current: seq<Message>, incoming: seq<Message>): seq<Message> {
    Sort(Earlier, PutAll(PutAll([], current), incoming))
  }

  // Filling the map is a loop over the batch; sorting is the library's.
  method MergeMessages(current: seq<Message>, incoming: seq<Message>) returns (list: seq<Message>)
    ensures list == Merged(current, incoming)
    ensures Shows(list, LastWrites(current + incoming))
  {
    var messages := PutAll([], current);
    for i := 0 to |incoming|
      invariant messages == PutAll(PutAll([], current), incoming[..i])
    {
      messages := Put(messages, incoming[i]);
      assert incoming[..i + 1][..i] == incoming[..i];
    }
    assert incoming[..|incoming|] == incoming;
    list := Sort(Earlier, messages);
    MergeShows(current, incoming);
  }

  lemma {:induction false} PutIds(entries: seq<Message>, m: Message)
    ensures forall x :: x in Put(entries, m) ==> x == m || x in entries
    ensures m in Put(entries, m)
    ensures forall x :: x in entries && x.id != m.id ==> x in Put(entries, m)
  {
    if entries != [] {
      assert entries == [entries[0]] + entries[1..];
      PutIds(entries[1..], m);
    }
  }

  // In a list without repeated ids, the first id occurs nowhere else.
  lemma FirstIsAlone(entries: seq<Message>)
    requires entries != [] && UniqueIds(entries)
    ensures UniqueIds(entries[1..]) && forall x :: x in entries[1..] ==> x.id != entries[0].id
  {
    var rest := entries[1..];
    forall x | x in rest ensures x.id != entries[0].id {
      var k :| 0 <= k < |rest| && rest[k] == x;
      assert entries[k + 1] == x;
    }
  }

  lemma PrependUnique(first: Message, rest: seq<Message>)
    requires UniqueIds(rest) && forall x :: x in rest ==> x.id != first.id
    ensures UniqueIds([first] + rest)
  {
  }

  lemma {:induction false} PutUnique(entries: seq<Message>, m: Message)
    requires UniqueIds(entries)
    ensures UniqueIds(Put(entries, m))
    ensures forall x :: x in Put(entries, m) <==> x == m || (x in entries && x.id != m.id)
  {
    PutIds(entries, m);
    if entries != [] {
      hide UniqueIds;
      var rest := entries[1..];
      assert entries == [entries[0]] + rest;
      FirstIsAlone(entries);
      PutIds(rest, m);
      PutUnique(rest, m);
      if entries[0].id == m.id {
        PrependUnique(m, rest);
      } else {
        PrependUnique(entries[0], Put(rest, m));
      }
    }
  }

  lemma {:induction false} PutAllEntries(entries: seq<Message>, before: seq<Message>, writes: seq<Message>)
    requires Entries(entries, LastWrites(before))
    ensures Entries(PutAll(entries, writes), LastWrites(before + writes))
    decreases |writes|
  {
    if writes == [] {
      assert before + writes == before;
    } else {
      var init, last := writes[..|writes| - 1], writes[|writes| - 1];
      PutAllEntries(entries, before, init);
      PutUnique(PutAll(entries, init), last);
      assert (before + writes)[..|before + writes| - 1] == before + init;
      assert (before + writes)[|before + writes| - 1] == last;
    }
  }

  lemma EarlierOrders()
    ensures StrictOrder(Earlier)
  {
  }

  lemma SortShows(entries: seq<Message>, kept: map<MessageId, Message>)
    requires Entries(entries, kept)
    ensures Shows(Sort(Earlier, entries), kept)
  {
    EarlierOrders();
    assert Separates(Earlier, entries);
    SortSorts(Earlier, entries);
  }

  lemma MergeShows(current: seq<Message>, incoming: seq<Message>)
    ensures Shows(Merged(current, incoming), LastWrites(current + incoming))
  {
    assert Entries([], LastWrites([]));
    PutAllEntries([], [], current);
    assert [] + current == current;
    PutAllEntries(PutAll([], current), current, incoming);
    SortShows(PutAll(PutAll([], current), incoming), LastWrites(current + incoming));
  }

  // ---------- Any number of batches ----------

  function Folded(batches: seq<seq<Message>>): seq<Message> {
    if batches == [] then [] else Merged(Folded(batches[..|batches| - 1]), batches[|batches| - 1])
  }

  function Flat(batches: seq<seq<Message>>): seq<Message> {
    if batches == [] then [] else Flat(batches[..|batches| - 1]) + batches[|batches| - 1]
  }

  // A shown list writes exactly what it shows.
  lemma ShownListWrites(list: seq<Message>, kept: map<MessageId, Message>)
    requires Shows(list, kept) && forall id :: id in kept ==> kept[id].id == id
    ensures LastWrites(list) == kept
  {
    hide LastWrites, Sorted;
    ListWritesItself(list);
    WritesKeepIds(list);
    assert forall id :: id in kept ==> kept[id] in list;
    assert forall id :: id in LastWrites(list) ==> LastWrites(list)[id] in list;
  }

  lemma LastWritesAppend(before: seq<Message>, m: Message)
    ensures LastWrites(before + [m]) == LastWrites(before)[m.id := m]
  {
    assert (before + [m])[..|before|] == before;
  }

  // A list that shows what earlier writes left can stand for those writes.
  lemma {:induction false} ShownListStands(list: seq<Message>, before: seq<Message>, after: seq<Message>)
    requires Shows(list, LastWrites(before))
    ensures LastWrites(list + after) == LastWrites(before + after)
    decreases |after|
  {
    hide LastWrites, Shows;
    if after == [] {
      assert list + after == list && before + after == before;
      WritesKeepIds(before);
      ShownListWrites(list, LastWrites(before));
    } else {
      var init, last := after[..|after| - 1], after[|after| - 1];
      assert after == init + [last];
      ShownListStands(list, before, init);
      LastWritesAppend(list + init, last);
      LastWritesAppend(before + init, last);
      assert list + after == list + init + [last] && before + after == before + init + [last];
    }
  }

  lemma {:induction false} WritesKeepIds(writes: seq<Message>)
    ensures forall id :: id in LastWrites(writes) ==> LastWrites(writes)[id].id == id && LastWrites(writes)[id] in writes
  {
    if writes != [] {
      var init := writes[..|writes| - 1];
      assert writes == init + [writes[|writes| - 1]];
      WritesKeepIds(init);
    }
  }

  // A sorted list with one message per id leaves every message it writes.
  lemma {:induction false} DistinctWritesStay(list: seq<Message>)
    requires UniqueIds(list)
    ensures forall m :: m in list ==> m.id in LastWrites(list) && LastWrites(list)[m.id] == m
  {
    if list != [] {
      var init, last := list[..|list| - 1], list[|list| - 1];
      assert list == init + [last];
      DistinctWritesStay(init);
      forall m | m in init ensures m.id != last.id {
        var k :| 0 <= k < |init| && init[k] == m;
        assert list[k] == m;
      }
    }
  }

  lemma ListWritesItself(list: seq<Message>)
    requires Sorted(Earlier, list)
    requires forall m, n :: m in list && n in list && m.id == n.id ==> m == n
    ensures forall m :: m in list ==> m.id in LastWrites(list) && LastWrites(list)[m.id] == m
  {
    forall i, j | 0 <= i < j < |list| ensures list[i].id != list[j].id {
      assert Earlier(list[i], list[j]);
    }
    DistinctWritesStay(list);
  }

  // The list after any batches: sorted by time and id, one message per id, the last one written, none lost.
  lemma {:induction false} FoldShowsLastWrites(batches: seq<seq<Message>>)
    ensures Shows(Folded(batches), LastWrites(Flat(batches)))
  {
    if batches == [] {
      assert Shows([], map[]);
    } else {
      var init, last := batches[..|batches| - 1], batches[|batches| - 1];
      FoldShowsLastWrites(init);
      MergeShows(Folded(init), last);
      ShownListStands(Folded(init), Flat(init), last);
    }
  }

  // Two clients show the same list exactly when the last writes they received agree.
  lemma FoldsAgreeExactly(xs: seq<seq<Message>>, ys: seq<seq<Message>>)
    ensures Folded(xs) == Folded(ys) <==> LastWrites(Flat(xs)) == LastWrites(Flat(ys))
  {
    FoldShowsLastWrites(xs);
    FoldShowsLastWrites(ys);
    EarlierOrders();
    if LastWrites(Flat(xs)) == LastWrites(Flat(ys)) {
      SortedIsUnique(Earlier, Folded(xs), Folded(ys));
    }
    if Folded(xs) == Folded(ys) {
      ShownListStands(Folded(xs), Flat(xs), []);
      ShownListStands(Folded(ys), Flat(ys), []);
      assert Flat(xs) + [] == Flat(xs) && Flat(ys) + [] == Flat(ys);
    }
  }

  ghost predicate Consistent(messages: seq<Message>) {
    forall m, n :: m in messages && n in messages && m.id == n.id ==> m == n
  }

  lemma {:induction false} ConsistentWrites(writes: seq<Message>)
    requires Consistent(writes)
    ensures forall m :: m in writes ==> m.id in LastWrites(writes) && LastWrites(writes)[m.id] == m
  {
    if writes != [] {
      var init, last := writes[..|writes| - 1], writes[|writes| - 1];
      assert writes == init + [last];
      ConsistentWrites(init);
    }
  }

  // If a message never changes under its id, the order, overlap and repetition of batches do not matter:
  // the same messages give the same list, and every message received is in it.
  lemma ClientsConverge(xs: seq<seq<Message>>, ys: seq<seq<Message>>)
    requires Consistent(Flat(xs)) && (forall m :: m in Flat(xs) <==> m in Flat(ys))
    ensures Folded(xs) == Folded(ys)
    ensures Sorted(Earlier, Folded(xs)) && forall m :: m in Folded(xs) <==> m in Flat(xs)
  {
    assert Consistent(Flat(ys));
    ConsistentWrites(Flat(xs));
    ConsistentWrites(Flat(ys));
    WritesKeepIds(Flat(xs));
    WritesKeepIds(Flat(ys));
    assert LastWrites(Flat(xs)) == LastWrites(Flat(ys));
    FoldsAgreeExactly(xs, ys);
    FoldShowsLastWrites(xs);
  }

  lemma LastOfTwo(first: Message, second: Message)
    ensures Flat([[first], [second]]) == [first, second]
    ensures second.id in LastWrites([first, second]) && LastWrites([first, second])[second.id] == second
  {
    var batches := [[first], [second]];
    assert batches[..1] == [[first]] && [[first]][..0] == [];
    assert Flat([[first]]) == Flat([]) + [first] == [first];
    assert Flat(batches) == Flat([[first]]) + [second];
    assert [first, second][..1] == [first];
  }

  // Without that, the later batch wins: an acknowledgement and the draft it replaces do not commute.
  lemma EditsDoNotCommute(draft: Message, final: Message)
    requires draft.id == final.id && draft != final
    ensures Folded([[draft], [final]]) != Folded([[final], [draft]])
  {
    LastOfTwo(draft, final);
    LastOfTwo(final, draft);
    hide LastWrites, Flat, Folded;
    FoldsAgreeExactly([[draft], [final]], [[final], [draft]]);
  }
}
