/** The kv.state capability over one facet: a size-accounted snapshot that behaves like a plain map. */
module KvState {
  import opened Options
  import opened Json
  import opened Strings

  const MAX_SAFE_INTEGER := 0x1F_FFFF_FFFF_FFFF

  datatype Limits = Limits(maxKeyBytes: int, maxValueBytes: int, maxTotalBytes: int, maxEntries: int)

  predicate IsLimits(l: Limits) {
    && 1 <= l.maxKeyBytes <= MAX_SAFE_INTEGER && 1 <= l.maxValueBytes <= MAX_SAFE_INTEGER
    && 1 <= l.maxTotalBytes <= MAX_SAFE_INTEGER && 1 <= l.maxEntries <= MAX_SAFE_INTEGER
  }

  /** One entry of the snapshot's Map, which keeps its entries in insertion order. */
  datatype Entry = Entry(key: string, json: string, sizeBytes: int)

  datatype Snapshot = Snapshot(totalBytes: int, entries: seq<Entry>)

  // ----- the Map -----

  function Find(entries: seq<Entry>, key: string): Option<Entry> {
    if entries == [] then None else if entries[0].key == key then Some(entries[0]) else Find(entries[1..], key)
  }

  /** Map.set: a new key goes last, a known key keeps its place. */
  function Set(entries: seq<Entry>, e: Entry): seq<Entry> {
    if entries == [] then [e]
    else if entries[0].key == e.key then [e] + entries[1..]
    else [entries[0]] + Set(entries[1..], e)
  }

  function Delete(entries: seq<Entry>, key: string): seq<Entry> {
    if entries == [] then []
    else if entries[0].key == key then entries[1..]
    else [entries[0]] + Delete(entries[1..], key)
  }

  function SizeSum(entries: seq<Entry>): int {
    if entries == [] then 0 else entries[0].sizeBytes + SizeSum(entries[1..])
  }

  predicate DistinctKeys(entries: seq<Entry>) {
    forall i, k :: 0 <= i < k < |entries| ==> entries[i].key != entries[k].key
  }

  function SizeAt(entries: seq<Entry>, key: string): int {
    var e := Find(entries, key);
    if e.None? then 0 else e.value.sizeBytes
  }

  // ----- the plain map behind it -----

  function ParseStored(json: string): Option<Doc> {
    var parsed := ParseDoc(json);
    if parsed.Some? && parsed.value.1 == [] then Some(parsed.value.0) else None
  }

  /** What the facet holds: keys to JSON values. */
  ghost function Contents(entries: seq<Entry>): map<string, Option<Doc>> {
    if entries == [] then map[] else Contents(entries[1..])[entries[0].key := ParseStored(entries[0].json)]
  }

  /** Every entry is sized as its key and value are and within the limits, and the total is their sum. */
  ghost predicate EntryOk(l: Limits, e: Entry) {
    && e.sizeBytes == Utf8Length(e.key) + Utf8Length(e.json)
    && Utf8Length(e.key) <= l.maxKeyBytes && Utf8Length(e.json) <= l.maxValueBytes
    && ParseStored(e.json).Some?
  }

  ghost predicate SnapshotOk(l: Limits, s: Snapshot) {
    && IsLimits(l)
    && DistinctKeys(s.entries)
    && (forall i :: 0 <= i < |s.entries| ==> EntryOk(l, s.entries[i]))
    && s.totalBytes == SizeSum(s.entries) <= l.maxTotalBytes
    && |s.entries| <= l.maxEntries
  }

  lemma {:induction false} ContentsAt(entries: seq<Entry>, key: string)
    requires DistinctKeys(entries)
    ensures key in Contents(entries) <==> Find(entries, key).Some?
    ensures Find(entries, key).Some? ==>
      Find(entries, key).value.key == key && Contents(entries)[key] == ParseStored(Find(entries, key).value.json)
    ensures Find(entries, key).Some? <==> exists i :: 0 <= i < |entries| && entries[i].key == key
    ensures Find(entries, key).Some? ==> Find(entries, key).value in entries
  {
    if entries != [] {
      ContentsAt(entries[1..], key);
      if entries[0].key != key && Find(entries[1..], key).Some? {
        var i :| 0 <= i < |entries[1..]| && entries[1..][i].key == key;
        assert entries[i+1].key == key;
      }
    }
  }

  lemma {:induction false} SetIs(entries: seq<Entry>, e: Entry)
    requires DistinctKeys(entries)
    ensures DistinctKeys(Set(entries, e)) && forall x :: x in Set(entries, e) ==> x == e || x in entries
    ensures Contents(Set(entries, e)) == Contents(entries)[e.key := ParseStored(e.json)]
    ensures SizeSum(Set(entries, e)) == SizeSum(entries) - SizeAt(entries, e.key) + e.sizeBytes
    ensures |Set(entries, e)| == |entries| + if Find(entries, e.key).None? then 1 else 0
  {
    if entries != [] && entries[0].key != e.key {
      SetIs(entries[1..], e);
      var rest := Set(entries[1..], e);
      forall k | 0 <= k < |rest| ensures rest[k].key != entries[0].key {
        assert rest[k] in rest;
        if rest[k] != e {
          var i :| 0 <= i < |entries[1..]| && entries[1..][i] == rest[k];
          assert entries[i+1] == rest[k];
        }
      }
    }
  }

  lemma {:induction false} DeleteKeys(entries: seq<Entry>, key: string)
    requires DistinctKeys(entries)
    ensures DistinctKeys(Delete(entries, key)) && forall x :: x in Delete(entries, key) ==> x in entries && x.key != key
    ensures |Delete(entries, key)| <= |entries|
  {
    if entries != [] {
      if entries[0].key == key {
        forall x | x in entries[1..] ensures x.key != key {
          var i :| 0 <= i < |entries[1..]| && entries[1..][i] == x;
          assert entries[i+1] == x;
        }
      } else {
        DeleteKeys(entries[1..], key);
        var rest := Delete(entries[1..], key);
        forall k | 0 <= k < |rest| ensures rest[k].key != entries[0].key {
          assert rest[k] in rest;
          var i :| 0 <= i < |entries[1..]| && entries[1..][i] == rest[k];
          assert entries[i+1] == rest[k];
        }
      }
    }
  }

  lemma {:induction false} DeleteIs(entries: seq<Entry>, key: string)
    requires DistinctKeys(entries)
    ensures Contents(Delete(entries, key)) == Contents(entries) - {key}
    ensures SizeSum(Delete(entries, key)) == SizeSum(entries) - SizeAt(entries, key)
  {
    if entries != [] {
      ContentsAt(entries[1..], key);
      if entries[0].key != key { DeleteIs(entries[1..], key); }
    }
  }

  lemma {:induction false} SizesAreNonNegative(l: Limits, entries: seq<Entry>)
    requires forall i :: 0 <= i < |entries| ==> EntryOk(l, entries[i])
    ensures SizeSum(entries) >= 0
    ensures forall i :: 0 <= i < |entries| ==> 0 <= entries[i].sizeBytes <= SizeSum(entries)
  {
    if entries != [] {
      SizesAreNonNegative(l, entries[1..]);
      assert EntryOk(l, entries[0]);
      forall i | 0 <= i < |entries| ensures 0 <= entries[i].sizeBytes <= SizeSum(entries) {
        if i > 0 { assert entries[1..][i-1] == entries[i]; }
      }
    }
  }

  lemma StoredParses(value: Doc)
    ensures ParseStored(Print(value)) == Some(value)
  {
    ParsePrinted(value, []);
  }

  // ----- the provider -----

  datatype Denial = KeyTooLong | ValueTooLong | TooManyEntries | TooManyBytes

  datatype GetResult = GetDenied(denial: Denial) | Got(value: Option<Doc>)

  datatype PutResult = PutDenied(denial: Denial) | PutDone(totalBytes: int)

  datatype DeleteResult = DeleteDenied(denial: Denial) | DeleteDone(deleted: bool, totalBytes: int)

  predicate IsSafe(n: int) {
    -MAX_SAFE_INTEGER <= n <= MAX_SAFE_INTEGER
  }

  /** The stored snapshot is taken only if its sizes are safe, not negative and add up. */
  method ReadSnapshot(stored: Option<Snapshot>) returns (r: Option<Snapshot>)
    ensures stored.None? ==> r == Some(Snapshot(0, []))
    ensures stored.Some? ==>
      (r == if IsSafe(stored.value.totalBytes) && stored.value.totalBytes >= 0
               && (forall i :: 0 <= i < |stored.value.entries| ==>
                    IsSafe(stored.value.entries[i].sizeBytes) && stored.value.entries[i].sizeBytes >= 0)
               && SizeSum(stored.value.entries) == stored.value.totalBytes
            then stored else None)
  {
    if stored.None? { return Some(Snapshot(0, [])); }
    var s := stored.value;
    if !IsSafe(s.totalBytes) || s.totalBytes < 0 { return None; }
    var measuredBytes := 0;
    for i := 0 to |s.entries|
      invariant measuredBytes + SizeSum(s.entries[i..]) == SizeSum(s.entries)
      invariant forall k :: 0 <= k < i ==> IsSafe(s.entries[k].sizeBytes) && s.entries[k].sizeBytes >= 0
    {
      var e := s.entries[i];
      if !IsSafe(e.sizeBytes) || e.sizeBytes < 0 { return None; }
      assert s.entries[i..][1..] == s.entries[i+1..];
      measuredBytes := measuredBytes + e.sizeBytes;
    }
    assert s.entries[|s.entries|..] == [];
    if measuredBytes != s.totalBytes { return None; }
    return stored;
  }

  class KvFacet {
    const limits: Limits
    var stored: Option<Snapshot>

    constructor (limits: Limits)
      requires IsLimits(limits)
      ensures Valid() && Values() == map[] && this.limits == limits
    {
      this.limits, stored := limits, None;
    }

    function Entries(): seq<Entry>
      reads this
    {
      if stored.None? then [] else stored.value.entries
    }

    ghost function Values(): map<string, Option<Doc>>
      reads this
    {
      Contents(Entries())
    }

    ghost predicate Valid()
      reads this
    {
      IsLimits(limits) && (stored.Some? ==> SnapshotOk(limits, stored.value))
    }

    /** What every operation reads first; it never fails on a snapshot the operations wrote. */
    method Read() returns (s: Snapshot)
      requires Valid()
      ensures s.entries == Entries() && s.totalBytes == SizeSum(Entries()) && SnapshotOk(limits, s)
    {
      var r := ReadSnapshot(stored);
      if stored.Some? { SizesAreNonNegative(limits, stored.value.entries); }
      s := r.value;
    }

    method Get(key: string) returns (r: GetResult)
      requires Valid()
      ensures Utf8Length(key) > limits.maxKeyBytes ==> r == GetDenied(KeyTooLong)
      ensures Utf8Length(key) <= limits.maxKeyBytes ==>
        r == Got(if key in Values() then Values()[key] else None)
      ensures r.Got? ==> (r.value.Some? <==> key in Values())
    {
      if Utf8Length(key) > limits.maxKeyBytes { return GetDenied(KeyTooLong); }
      var snapshot := Read();
      ContentsAt(snapshot.entries, key);
      var entry := Find(snapshot.entries, key);
      if entry.None? { return Got(None); }
      assert EntryOk(limits, entry.value);
      return Got(ParseStored(entry.value.json));
    }

    /** Stores the value as a plain map would, or denies it for the first limit it breaks and changes
        nothing; the total reported is the sum of the sizes now stored. */
    method Put(key: string, value: Doc) returns (r: PutResult)
      requires Valid()
      modifies this
      ensures Valid()
      ensures r.PutDone? ==> Values() == old(Values())[key := Some(value)] && r.totalBytes == SizeSum(Entries())
      ensures r.PutDenied? ==> stored == old(stored)
      ensures r == if Utf8Length(key) > limits.maxKeyBytes then PutDenied(KeyTooLong)
                   else if Utf8Length(Print(value)) > limits.maxValueBytes then PutDenied(ValueTooLong)
                   else if key !in old(Values()) && |old(Entries())| >= limits.maxEntries then PutDenied(TooManyEntries)
                   else
                     var size := Utf8Length(key) + Utf8Length(Print(value));
                     var total := SizeSum(old(Entries())) - SizeAt(old(Entries()), key) + size;
                     if total > limits.maxTotalBytes then PutDenied(TooManyBytes) else PutDone(total)
    {
      var keyBytes := Utf8Length(key);
      if keyBytes > limits.maxKeyBytes { return PutDenied(KeyTooLong); }
      var json := Print(value);
      StoredParses(value);
      var valueBytes := Utf8Length(json);
      if valueBytes > limits.maxValueBytes { return PutDenied(ValueTooLong); }
      var snapshot := Read();
      ContentsAt(snapshot.entries, key);
      var previous := Find(snapshot.entries, key);
      if previous.None? && |snapshot.entries| >= limits.maxEntries { return PutDenied(TooManyEntries); }
      var entryBytes := keyBytes + valueBytes;
      var totalBytes := snapshot.totalBytes - (if previous.None? then 0 else previous.value.sizeBytes) + entryBytes;
      if totalBytes > limits.maxTotalBytes { return PutDenied(TooManyBytes); }
      var e := Entry(key, json, entryBytes);
      var entries := Set(snapshot.entries, e);
      SetIs(snapshot.entries, e);
      forall i | 0 <= i < |entries| ensures EntryOk(limits, entries[i]) { assert entries[i] in entries; }
      stored := Some(Snapshot(totalBytes, entries));
      return PutDone(totalBytes);
    }

    method Remove(key: string) returns (r: DeleteResult)
      requires Valid()
      modifies this
      ensures Valid()
      ensures Utf8Length(key) > limits.maxKeyBytes ==> r == DeleteDenied(KeyTooLong) && stored == old(stored)
      ensures Utf8Length(key) <= limits.maxKeyBytes ==>
        && Values() == old(Values()) - {key}
        && r == DeleteDone(key in old(Values()), SizeSum(Entries()))
    {
      if Utf8Length(key) > limits.maxKeyBytes { return DeleteDenied(KeyTooLong); }
      var snapshot := Read();
      ContentsAt(snapshot.entries, key);
      var previous := Find(snapshot.entries, key);
      if previous.None? { return DeleteDone(false, snapshot.totalBytes); }
      var entries := Delete(snapshot.entries, key);
      DeleteKeys(snapshot.entries, key);
      DeleteIs(snapshot.entries, key);
      assert EntryOk(limits, previous.value);
      forall i | 0 <= i < |entries| ensures EntryOk(limits, entries[i]) { assert entries[i] in entries; }
      var totalBytes := snapshot.totalBytes - previous.value.sizeBytes;
      stored := Some(Snapshot(totalBytes, entries));
      return DeleteDone(true, totalBytes);
    }
  }
}
