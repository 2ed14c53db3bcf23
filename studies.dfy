/** Study records and the split of the fetched study list into the four
    status buckets that the study listing page receives as its props. */
module Studies {

  datatype Option<T> = None | Some(value: T)

  /** The four states a study can be in, as the content backend names them. */
  datatype Status = READY | OPEN | INPROGRESS | CLOSE

  /** A study record. Only what the listing logic reads is kept: an opaque
      identity and the raw status text sent by the backend. */
  datatype Study = Study(id: string, studyStatus: string)

  /** The status text the backend writes for each state. */
  function StatusName(st: Status): string {
    match st
    case READY => "READY"
    case OPEN => "OPEN"
    case INPROGRESS => "INPROGRESS"
    case CLOSE => "CLOSE"
  }

  /** The key of the bucket each state belongs in. */
  function BucketKey(st: Status): string {
    match st
    case READY => "ready"
    case OPEN => "open"
    case INPROGRESS => "inprogress"
    case CLOSE => "close"
  }

  /** The keys of the status dictionary built by getStaticProps. */
  predicate IsBucketKey(key: string) {
    key == "ready" || key == "open" || key == "inprogress" || key == "close"
  }

  /** String.prototype.toLowerCase on one character, ASCII letters only. */
  function LowerChar(c: char): (r: char)
    ensures 'A' <= c <= 'Z' ==> r as int == c as int + 32
    ensures !('A' <= c <= 'Z') ==> r == c
    ensures !('A' <= r <= 'Z')
  {
    if 'A' <= c <= 'Z' then (c as int + 32) as char else c
  }

  /** String.prototype.toLowerCase, ASCII letters only. */
  function ToLower(s: string): (r: string)
    ensures |r| == |s|
    ensures forall i :: 0 <= i < |s| ==> r[i] == LowerChar(s[i])
  {
    seq(|s|, i requires 0 <= i < |s| => LowerChar(s[i]))
  }

  /** Lower-casing twice is lower-casing once. */
  lemma ToLowerIdempotent(s: string)
    ensures ToLower(ToLower(s)) == ToLower(s)
  {
  }

  /** The lower-cased backend name of every state is the key of its bucket,
      and different states land in different buckets. */
  lemma StatusNameKeys(st: Status, other: Status)
    ensures ToLower(StatusName(st)) == BucketKey(st)
    ensures IsBucketKey(BucketKey(st))
    ensures st != other ==> BucketKey(st) != BucketKey(other)
  {
    var name := StatusName(st);
    assert ToLower(name) == BucketKey(st) by {
      match st
      case READY =>
        assert ToLower(name) == ['r', 'e', 'a', 'd', 'y'];
      case OPEN =>
        assert ToLower(name) == ['o', 'p', 'e', 'n'];
      case INPROGRESS =>
        assert ToLower(name) == ['i', 'n', 'p', 'r', 'o', 'g', 'r', 'e', 's', 's'];
      case CLOSE =>
        assert ToLower(name) == ['c', 'l', 'o', 's', 'e'];
    }
  }

  /** The bucket a study is pushed onto: its lower-cased status text. */
  function KeyOf(x: Study): string {
    ToLower(x.studyStatus)
  }

  /** Every study's status lower-cases to one of the four keys. Outside this,
      getStaticProps finds no list with a `push` under the key and throws. */
  predicate KnownStatuses(list: seq<Study>) {
    forall i :: 0 <= i < |list| ==> IsBucketKey(KeyOf(list[i]))
  }

  /** The status dictionary: one list of studies per key. */
  datatype Buckets = Buckets(ready: seq<Study>, open: seq<Study>, inprogress: seq<Study>, close: seq<Study>)

  /** The dictionary as first built: four empty lists. */
  const NoStudies := Buckets([], [], [], [])

  /** Indexing the dictionary by a key: one of the four lists, or no own list
      (undefined, or an inherited `Object.prototype` member without `push`). */
  function Lookup(b: Buckets, key: string): (r: Option<seq<Study>>)
    ensures r.Some? <==> IsBucketKey(key)
    ensures key == "ready" ==> r == Some(b.ready)
    ensures key == "open" ==> r == Some(b.open)
    ensures key == "inprogress" ==> r == Some(b.inprogress)
    ensures key == "close" ==> r == Some(b.close)
  {
    if key == "ready" then Some(b.ready)
    else if key == "open" then Some(b.open)
    else if key == "inprogress" then Some(b.inprogress)
    else if key == "close" then Some(b.close)
    else None
  }

  /** `dictionary[key].push(x)`: appends to the list under a known key and
      leaves the other lists alone. */
  function Push(b: Buckets, key: string, x: Study): (r: Buckets)
    requires IsBucketKey(key)
    ensures Lookup(r, key) == Some(Lookup(b, key).value + [x])
    ensures forall k :: k != key ==> Lookup(r, k) == Lookup(b, k)
  {
    if key == "ready" then b.(ready := b.ready + [x])
    else if key == "open" then b.(open := b.open + [x])
    else if key == "inprogress" then b.(inprogress := b.inprogress + [x])
    else b.(close := b.close + [x])
  }

  /** The four lists one after another, in the order ready, open, inprogress,
      close. */
  function Concat(b: Buckets): (r: seq<Study>)
    ensures |r| == |b.ready| + |b.open| + |b.inprogress| + |b.close|
  {
    b.ready + b.open + b.inprogress + b.close
  }

  /** The studies of `list` whose key is `key`, in input order. */
  function Only(list: seq<Study>, key: string): seq<Study>
    decreases |list|
  {
    if list == [] then []
    else
      var last := list[|list| - 1];
      Only(list[..|list| - 1], key) + (if KeyOf(last) == key then [last] else [])
  }

  /** The indices of `list` whose study has key `key`, in increasing order. */
  function Positions(list: seq<Study>, key: string): seq<nat>
    decreases |list|
  {
    if list == [] then []
    else
      Positions(list[..|list| - 1], key) + (if KeyOf(list[|list| - 1]) == key then [|list| - 1] else [])
  }

  /** The dictionary getStaticProps returns for `list`, bucket by bucket. */
  function Partitioned(list: seq<Study>): Buckets {
    Buckets(Only(list, "ready"), Only(list, "open"), Only(list, "inprogress"), Only(list, "close"))
  }

  /** A study is in bucket `key` exactly when it is in the input and its
      status lower-cases to `key`. */
  lemma {:induction false} OnlyMembership(list: seq<Study>, key: string, x: Study)
    ensures x in Only(list, key) <==> x in list && KeyOf(x) == key
    decreases |list|
  {
    if list != [] {
      var init := list[..|list| - 1];
      OnlyMembership(init, key, x);
      assert list == init + [list[|list| - 1]];
    }
  }

  /** Bucket `key` is the subsequence of the input at exactly the indices whose
      key is `key`, taken in increasing order: no study is dropped, added or
      moved relative to the others of its bucket. */
  lemma {:induction false} OnlyPositions(list: seq<Study>, key: string)
    ensures |Positions(list, key)| == |Only(list, key)|
    ensures forall j :: 0 <= j < |Positions(list, key)| ==>
      Positions(list, key)[j] < |list| && Only(list, key)[j] == list[Positions(list, key)[j]]
    ensures forall j1, j2 :: 0 <= j1 < j2 < |Positions(list, key)| ==>
      Positions(list, key)[j1] < Positions(list, key)[j2]
    ensures forall i :: 0 <= i < |list| ==> (i in Positions(list, key) <==> KeyOf(list[i]) == key)
    decreases |list|
  {
    if list != [] {
      var n := |list| - 1;
      var init := list[..n];
      OnlyPositions(init, key);
      var p, o := Positions(init, key), Only(init, key);
      assert forall j :: 0 <= j < |p| ==> p[j] < n;
      forall i | 0 <= i < |list|
        ensures i in Positions(list, key) <==> KeyOf(list[i]) == key
      {
        if i < n {
          assert list[i] == init[i];
        }
      }
    }
  }

  /** Pushing one more study onto the dictionary of a list gives the
      dictionary of the longer list. */
  lemma PartitionedSnoc(list: seq<Study>, x: Study)
    requires IsBucketKey(KeyOf(x))
    ensures Partitioned(list + [x]) == Push(Partitioned(list), KeyOf(x), x)
  {
    assert (list + [x])[..|list|] == list;
  }

  /** The four bucket lengths add up to the input length. */
  lemma {:induction false} PartitionCount(list: seq<Study>)
    requires KnownStatuses(list)
    ensures |Concat(Partitioned(list))| == |list|
    decreases |list|
  {
    if list != [] {
      var init := list[..|list| - 1];
      assert KnownStatuses(init) by {
        forall i | 0 <= i < |init| ensures IsBucketKey(KeyOf(init[i])) {
          assert init[i] == list[i];
        }
      }
      PartitionCount(init);
    }
  }

  /** The four buckets together hold exactly the input studies, each as often
      as in the input. */
  lemma {:induction false} PartitionPermutation(list: seq<Study>)
    requires KnownStatuses(list)
    ensures multiset(Concat(Partitioned(list))) == multiset(list)
    decreases |list|
  {
    if list != [] {
      var n := |list| - 1;
      var init, x := list[..n], list[n];
      assert KnownStatuses(init) by {
        forall i | 0 <= i < |init| ensures IsBucketKey(KeyOf(init[i])) {
          assert init[i] == list[i];
        }
      }
      PartitionPermutation(init);
      assert list == init + [x];
      assert IsBucketKey(KeyOf(list[n]));
      PartitionedSnoc(init, x);
    }
  }

  /** No study sits in two buckets. */
  lemma BucketsDisjoint(list: seq<Study>, k1: string, k2: string, x: Study)
    requires x in Only(list, k1) && x in Only(list, k2)
    ensures k1 == k2
  {
    OnlyMembership(list, k1, x);
    OnlyMembership(list, k2, x);
  }

  /** getStaticProps: starts from four empty lists and pushes each fetched
      study, in order, onto the list under its lower-cased status. */
  method Partition(list: seq<Study>) returns (b: Buckets)
    requires KnownStatuses(list)
    ensures b == Partitioned(list)
    ensures multiset(Concat(b)) == multiset(list)
  {
    b := NoStudies;
    var i := 0;
    while i < |list|
      invariant 0 <= i <= |list|
      invariant b == Partitioned(list[..i])
    {
      var x := list[i];
      PartitionedSnoc(list[..i], x);
      assert list[..i + 1] == list[..i] + [x];
      b := Push(b, KeyOf(x), x);
      i := i + 1;
    }
    assert list[..|list|] == list;
    PartitionPermutation(list);
  }
}
