/** The content batch built by `Promise.all(selectedFiles.map(...))`: one
    `/api/file-content` request per selected path, launched together, and joined
    into `{ name, content }` records in selection order. One rejected fetch
    rejects the whole batch. The fetches may complete in any order: Settle
    replays them in completion order, filling the slot of each, and
    SettleInSelectionOrder shows the outcome is the same whatever that order. */
module Batch {
  import opened Protocol

  /** The content requests issued for `paths`, in the order they are launched. */
  function FetchRequests(repoUrl: string, paths: seq<string>): (r: seq<Request>)
    ensures |r| == |paths|
    ensures forall i | 0 <= i < |paths| :: r[i] == FetchFileContent(repoUrl, paths[i])
  {
    seq(|paths|, i requires 0 <= i < |paths| => FetchFileContent(repoUrl, paths[i]))
  }

  /** The batch in selection order, given the outcome of each path's fetch
      (`contents[i]` answers the request for `paths[i]`). */
  function ContentBatch(paths: seq<string>, contents: seq<Result<string>>): (r: Result<seq<FileContent>>)
    requires |contents| == |paths|
    ensures r.Success? <==> forall i | 0 <= i < |contents| :: contents[i].Success?
    ensures r.Success? ==> |r.value| == |paths|
    ensures r.Success? ==> forall i | 0 <= i < |paths| :: r.value[i] == FileContent(paths[i], contents[i].value)
  {
    if paths == [] then Success([])
    else
      match contents[0]
      case Failure => Failure
      case Success(c) =>
        match ContentBatch(paths[1..], contents[1..])
        case Failure => Failure
        case Success(rest) => Success([FileContent(paths[0], c)] + rest)
  }

  /** A completion order of `n` concurrent fetches: every index once. */
  predicate IsPermutation(order: seq<nat>, n: nat) {
    && (forall k | 0 <= k < |order| :: order[k] < n)
    && (forall j, k | 0 <= j < k < |order| :: order[j] != order[k])
    && (forall i | 0 <= i < n :: i in order)
  }

  /** Promise.all's fan-in: outcomes arrive in the order `order`; the first
      rejection rejects the batch, a fulfilled fetch fills its own slot. */
  function Settle(slots: seq<FileContent>, paths: seq<string>, contents: seq<Result<string>>, order: seq<nat>): (r: Result<seq<FileContent>>)
    requires |slots| == |paths| == |contents|
    requires forall k | 0 <= k < |order| :: order[k] < |paths|
    ensures r.Success? <==> forall k | 0 <= k < |order| :: contents[order[k]].Success?
    ensures r.Success? ==> |r.value| == |slots|
    decreases |order|
  {
    if order == [] then Success(slots)
    else
      var j := order[0];
      match contents[j]
      case Failure => Failure
      case Success(c) => Settle(slots[j := FileContent(paths[j], c)], paths, contents, order[1..])
  }

  /** The slots after the fetches in `order` have been filled in. */
  function Filled(slots: seq<FileContent>, paths: seq<string>, contents: seq<Result<string>>, order: seq<nat>): seq<FileContent>
    requires |slots| == |paths| == |contents|
  {
    seq(|slots|, i requires 0 <= i < |slots| =>
      if i in order && contents[i].Success? then FileContent(paths[i], contents[i].value) else slots[i])
  }

  /** Fan-in over distinct arrivals: rejected exactly when one of the arrived
      fetches was rejected, and otherwise every arrived fetch sits in its own slot. */
  lemma {:induction false} SettleFills(slots: seq<FileContent>, paths: seq<string>, contents: seq<Result<string>>, order: seq<nat>)
    requires |slots| == |paths| == |contents|
    requires forall k | 0 <= k < |order| :: order[k] < |paths|
    requires forall j, k | 0 <= j < k < |order| :: order[j] != order[k]
    ensures Settle(slots, paths, contents, order).Failure? <==> exists k | 0 <= k < |order| :: contents[order[k]].Failure?
    ensures Settle(slots, paths, contents, order).Success? ==>
              Settle(slots, paths, contents, order).value == Filled(slots, paths, contents, order)
    decreases |order|
  {
    if order == [] {
      assert Filled(slots, paths, contents, order) == slots;
    } else {
      var j := order[0];
      var rest := order[1..];
      assert forall k | 0 <= k < |rest| :: rest[k] == order[k + 1];
      if contents[j].Success? {
        var c := contents[j].value;
        var slots' := slots[j := FileContent(paths[j], c)];
        SettleFills(slots', paths, contents, rest);
        assert j !in rest by {
          forall k | 0 <= k < |rest| ensures rest[k] != j {
            assert rest[k] == order[k + 1];
          }
        }
        assert (exists k | 0 <= k < |order| :: contents[order[k]].Failure?)
           ==> (exists k | 0 <= k < |rest| :: contents[rest[k]].Failure?) by {
          if k :| 0 <= k < |order| && contents[order[k]].Failure? {
            assert k != 0;
            assert contents[rest[k - 1]].Failure?;
          }
        }
        if Settle(slots', paths, contents, rest).Success? {
          var got := Filled(slots', paths, contents, rest);
          var want := Filled(slots, paths, contents, order);
          forall i | 0 <= i < |slots| ensures got[i] == want[i] {
            if i != j {
              assert i in rest <==> i in order;
            }
          }
        }
      }
    }
  }

  /** Whatever order the concurrent content fetches complete in, Promise.all
      produces the batch in selection order (and rejects in the same cases). */
  lemma SettleInSelectionOrder(slots: seq<FileContent>, paths: seq<string>, contents: seq<Result<string>>, order: seq<nat>)
    requires |slots| == |paths| == |contents|
    requires IsPermutation(order, |paths|)
    ensures Settle(slots, paths, contents, order) == ContentBatch(paths, contents)
  {
    SettleFills(slots, paths, contents, order);
    var settled := Settle(slots, paths, contents, order);
    var batch := ContentBatch(paths, contents);
    if settled.Failure? {
      var k :| 0 <= k < |order| && contents[order[k]].Failure?;
      assert !batch.Success?;
    } else {
      forall i | 0 <= i < |paths| ensures contents[i].Success? {
        assert i in order;
        var k :| 0 <= k < |order| && order[k] == i;
      }
      assert settled.value == batch.value;
    }
  }

  /** Two runs that differ only in completion order send identical batches. */
  lemma CompletionOrderIrrelevant(paths: seq<string>, contents: seq<Result<string>>, order1: seq<nat>, order2: seq<nat>)
    requires |paths| == |contents|
    requires IsPermutation(order1, |paths|) && IsPermutation(order2, |paths|)
    ensures Settle(seq(|paths|, _ => FileContent("", "")), paths, contents, order1)
         == Settle(seq(|paths|, _ => FileContent("", "")), paths, contents, order2)
  {
    var pending := seq(|paths|, _ => FileContent("", ""));
    SettleInSelectionOrder(pending, paths, contents, order1);
    SettleInSelectionOrder(pending, paths, contents, order2);
  }
}
