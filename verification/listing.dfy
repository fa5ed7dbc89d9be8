/** Listing every key under a prefix: one listing document is normalised into
    a page, and pages are requested one after another, each with the last key
    of the previous page as its marker, until a page is not truncated. */
module Listing {
  import opened Common
  import opened S3Paths

  /** One element of a listing document's Contents. */
  datatype Entry = Entry(key: string)

  /** The XML parser gives Contents as nothing, as one object when the
      listing holds a single entry, or as an array. */
  datatype Contents = Absent | One(entry: Entry) | Many(entries: seq<Entry>)

  /** A parsed listing document; IsTruncated is the text of that element. */
  datatype ListDoc = ListDoc(contents: Contents, isTruncated: Option<string>)

  /** One page of a listing, as the single-page request reports it. */
  datatype Page = Page(keys: seq<string>, isTruncated: bool)

  /** The transport and the XML parser together: the listing URI of a request
      is answered by a parsed document or by an error message. */
  type Fetch = string -> Result<ListDoc, string>

  /** What one round of the paginator decides after receiving a reply. */
  datatype Step =
    | Finish(keys: seq<string>)                 // last page: return the listing
    | Continue(keys: seq<string>, next: string) // ask again with marker `next`
    | Stop(err: Error)                          // fail the whole listing

  /** The decision the paginator makes for each marker it could send. */
  type Rounds = Option<string> -> Step

  /** Contents as a list: absent is empty, a single object is one element. */
  function EntriesOf(c: Contents): (entries: seq<Entry>) {
    match c
    case Absent => []
    case One(e) => [e]
    case Many(es) => es
  }

  /** The page a listing document stands for. */
  function PageOf(doc: ListDoc): (page: Page)
    ensures page.isTruncated <==> doc.isTruncated == Some("true")
    ensures doc.contents.Absent? ==> page.keys == []
    ensures doc.contents.One? ==> page.keys == [doc.contents.entry.key]
    ensures doc.contents.Many? ==>
      |page.keys| == |doc.contents.entries| &&
      forall i :: 0 <= i < |page.keys| ==> page.keys[i] == doc.contents.entries[i].key
  {
    var es := EntriesOf(doc.contents);
    Page(seq(|es|, i requires 0 <= i < |es| => es[i].key), doc.isTruncated == Some("true"))
  }

  /** A single object in Contents gives the same page as an array holding
      just that object. */
  lemma SingleObjectAsArray(e: Entry, truncated: Option<string>)
    ensures PageOf(ListDoc(One(e), truncated)) == PageOf(ListDoc(Many([e]), truncated))
  {
  }

  /** The normalisation step of the single-page request: collect one key per
      entry, in document order, and read the truncation flag. */
  method NormalizePage(doc: ListDoc) returns (page: Page)
    ensures page == PageOf(doc)
  {
    var contents := EntriesOf(doc.contents);
    var keys: seq<string> := [];
    for i := 0 to |contents|
      invariant |keys| == i
      invariant forall j :: 0 <= j < i ==> keys[j] == contents[j].key
    {
      keys := keys + [contents[i].key];
    }
    page := Page(keys, doc.isTruncated == Some("true"));
  }

  /** The keys of a page with a leading echo of the marker removed. */
  function DropEcho(keys: seq<string>, marker: Option<string>): (kept: seq<string>)
    ensures kept != keys <==> |keys| > 0 && marker == Some(keys[0])
    ensures kept == keys || (|keys| > 0 && keys == [keys[0]] + kept)
    ensures marker.None? ==> kept == keys
  {
    if |keys| > 0 && marker == Some(keys[0]) then keys[1..] else keys
  }

  /** The single-page request: split the path, ask for the page at
      `marker`, and normalise the reply. */
  function PageFor(path: string, fetch: Fetch, marker: Option<string>): (r: Result<Page, Error>)
    ensures r.Failure? ==> r.error == InvalidPath || r.error.Transport?
  {
    match ParseS3Path(path)
    case Failure(e) => Failure(e)
    case Success(p) =>
      match fetch(ListUri(p, marker))
      case Failure(msg) => Failure(Transport(msg))
      case Success(doc) => Success(PageOf(doc))
  }

  /** The single-page request fails on the path exactly when the path has
      no slash; otherwise it asks for the listing URI of the path's bucket
      and prefix, and its page is the normalised document the server sent. */
  lemma PageForRequests(path: string, fetch: Fetch, marker: Option<string>)
    ensures PageFor(path, fetch, marker) == Failure(InvalidPath) <==> '/' !in path
    ensures '/' in path ==>
      var p := ParseS3Path(path).value;
      path == p.bucket + "/" + p.key &&
      (fetch(ListUri(p, marker)).Success? <==> PageFor(path, fetch, marker).Success?)
    ensures ParseS3Path(path).Success? ==>
      var reply := fetch(ListUri(ParseS3Path(path).value, marker));
      PageFor(path, fetch, marker) ==
        (if reply.Success? then Success(PageOf(reply.value)) else Failure(Transport(reply.error)))
  {
    ParseS3PathSplits(path);
  }

  /** reqKeysWithPrefix: one request for one page of keys. */
  method ReqKeysWithPrefix(path: string, fetch: Fetch, marker: Option<string>) returns (r: Result<Page, Error>)
    ensures r == PageFor(path, fetch, marker)
  {
    var parts := ParseS3Path(path);
    if parts.Failure? {
      return Failure(parts.error);
    }
    var reply := fetch(ListUri(parts.value, marker));
    if reply.Failure? {
      return Failure(Transport(reply.error));
    }
    var page := NormalizePage(reply.value);
    return Success(page);
  }

  /** What the paginator decides about a page received for `marker`: drop
      the echoed marker, finish on a page that is not truncated, and refuse
      a truncated page that leaves no key or no new marker. */
  function Decide(page: Page, marker: Option<string>): (s: Step)
    ensures s.Continue? ==>
      |s.keys| > 0 && s.next == s.keys[|s.keys| - 1] && s.next != "" && marker != Some(s.next)
    ensures s.Stop? ==> s.err == TruncatedEmpty || s.err == InfiniteLoop
    ensures s.Finish? <==> !page.isTruncated
    ensures !s.Stop? ==> s.keys == DropEcho(page.keys, marker)
    ensures var k := DropEcho(page.keys, marker);
      s == Stop(TruncatedEmpty) <==> page.isTruncated && k == []
    ensures var k := DropEcho(page.keys, marker);
      s == Stop(InfiniteLoop) <==>
        page.isTruncated && k != [] && (k[|k| - 1] == "" || marker == Some(k[|k| - 1]))
    ensures var k := DropEcho(page.keys, marker);
      page.isTruncated && k != [] && k[|k| - 1] != "" && marker != Some(k[|k| - 1]) ==>
        s == Continue(k, k[|k| - 1])
  {
    var kept := DropEcho(page.keys, marker);
    if !page.isTruncated then Finish(kept)
    else if |kept| < 1 then Stop(TruncatedEmpty)
    else
      var next := kept[|kept| - 1];
      if next == "" || Some(next) == marker then Stop(InfiniteLoop)
      else Continue(kept, next)
  }

  /** One round of the paginator: request the page for `marker` and decide. */
  function Round(path: string, fetch: Fetch, marker: Option<string>): (s: Step)
    ensures s.Stop? ==>
      s.err == InvalidPath || s.err.Transport? || s.err == TruncatedEmpty || s.err == InfiniteLoop
    ensures PageFor(path, fetch, marker).Failure? <==>
      s.Stop? && (s.err == InvalidPath || s.err.Transport?)
    ensures PageFor(path, fetch, marker).Failure? ==> s == Stop(PageFor(path, fetch, marker).error)
  {
    match PageFor(path, fetch, marker)
    case Failure(e) => Stop(e)
    case Success(page) => Decide(page, marker)
  }

  /** The rounds of the listing of `path` against the server `fetch`. */
  function RoundOf(path: string, fetch: Fetch): (rounds: Rounds) {
    (marker: Option<string>) => Round(path, fetch, marker)
  }

  /** The keys a round contributes to the listing. */
  function KeysOf(s: Step): (ks: seq<string>) {
    match s
    case Finish(ks) => ks
    case Continue(ks, _) => ks
    case Stop(_) => []
  }

  /** Puts keys gathered earlier in front of a successful result. */
  function Prepend(acc: seq<string>, r: Result<seq<string>, Error>): (joined: Result<seq<string>, Error>) {
    match r
    case Success(ks) => Success(acc + ks)
    case Failure(e) => Failure(e)
  }

  /** The listing obtained by starting at `marker` with at most `fuel`
      requests left; Exhausted once the requests are used up. A successful
      listing begins with the keys of its first round. */
  function Walk(round: Rounds, marker: Option<string>, fuel: nat): (r: Result<seq<string>, Error>)
    ensures r.Success? ==> fuel > 0 && !round(marker).Stop? && KeysOf(round(marker)) <= r.value
    decreases fuel
  {
    if fuel == 0 then Failure(Exhausted)
    else match round(marker)
      case Finish(ks) => Success(ks)
      case Stop(e) => Failure(e)
      case Continue(ks, next) => Prepend(ks, Walk(round, Some(next), fuel - 1))
  }

  // ---------------------------------------------------------------------
  // A second, trace-based description of the same listing: the sequence of
  // markers sent, each one the last key of the page before it.

  /** The marker `after` is the one sent after the round for `marker`
      continued. */
  ghost predicate Links(round: Rounds, marker: Option<string>, after: Option<string>) {
    round(marker).Continue? && after == Some(round(marker).next)
  }

  /** ms[i] is the marker of request i, and every request but the last was
      answered by a round that continued with the next marker. */
  ghost predicate Chain(round: Rounds, ms: seq<Option<string>>)
    decreases |ms|
  {
    |ms| > 0 && (|ms| > 1 ==> Links(round, ms[0], ms[1]) && Chain(round, ms[1..]))
  }

  /** A chain from `marker` that is as long as the listing goes: either the
      budget is spent, or its last round did not continue. */
  ghost predicate CompleteRun(round: Rounds, marker: Option<string>, fuel: nat, ms: seq<Option<string>>) {
    Chain(round, ms) && ms[0] == marker &&
    (|ms| == fuel + 1 || (|ms| <= fuel && !round(ms[|ms| - 1]).Continue?))
  }

  /** The keys of all rounds of a chain, in request order. */
  ghost function Collected(round: Rounds, ms: seq<Option<string>>): seq<string>
    decreases |ms|
  {
    if ms == [] then [] else KeysOf(round(ms[0])) + Collected(round, ms[1..])
  }

  /** The outcome a complete run stands for. */
  ghost function RunOutcome(round: Rounds, ms: seq<Option<string>>, fuel: nat): Result<seq<string>, Error>
    requires |ms| > 0
  {
    if |ms| > fuel then Failure(Exhausted)
    else match round(ms[|ms| - 1])
      case Stop(e) => Failure(e)
      case _ => Success(Collected(round, ms))
  }

  /** Every start has a complete run: follow the markers until the listing
      finishes, fails, or spends its budget. */
  lemma {:induction false} CompleteRunExists(round: Rounds, marker: Option<string>, fuel: nat)
    returns (ms: seq<Option<string>>)
    ensures CompleteRun(round, marker, fuel, ms)
    decreases fuel
  {
    var s := round(marker);
    if fuel == 0 || !s.Continue? {
      ms := [marker];
    } else {
      var tail := CompleteRunExists(round, Some(s.next), fuel - 1);
      ms := [marker] + tail;
      assert ms[1..] == tail;
      assert ms[|ms| - 1] == tail[|tail| - 1];
    }
  }

  /** A run that continues past its first round has the outcome of its
      tail, with the first round's keys in front. */
  lemma {:induction false} RunOutcomeTail(round: Rounds, ms: seq<Option<string>>, fuel: nat)
    requires |ms| > 1 && fuel > 0
    ensures RunOutcome(round, ms, fuel) ==
      Prepend(KeysOf(round(ms[0])), RunOutcome(round, ms[1..], fuel - 1))
  {
    var tail := ms[1..];
    assert tail[|tail| - 1] == ms[|ms| - 1];
    assert Collected(round, ms) == KeysOf(round(ms[0])) + Collected(round, tail);
  }

  /** After a round that continues, the rest of a complete run is a complete
      run from the next marker with one request less. */
  lemma {:induction false} CompleteRunTail(round: Rounds, marker: Option<string>, fuel: nat, ms: seq<Option<string>>)
    requires CompleteRun(round, marker, fuel, ms)
    requires fuel > 0 && round(marker).Continue?
    ensures |ms| > 1
    ensures CompleteRun(round, Some(round(marker).next), fuel - 1, ms[1..])
  {
    var tail := ms[1..];
    assert tail[|tail| - 1] == ms[|ms| - 1];
  }

  /** A run of one round that does not continue has that round's outcome. */
  lemma LastRound(round: Rounds, marker: Option<string>, fuel: nat)
    requires fuel > 0 && !round(marker).Continue?
    ensures Walk(round, marker, fuel) == RunOutcome(round, [marker], fuel)
  {
    var ms := [marker];
    assert ms[|ms| - 1] == marker && ms[1..] == [];
    assert Collected(round, ms) == KeysOf(round(ms[0])) + Collected(round, ms[1..]);
    assert Collected(round, []) == [];
    assert KeysOf(round(marker)) + [] == KeysOf(round(marker));
  }

  /** After a round that continues, the listing is that round's keys in
      front of the listing from the next marker with one request less. */
  lemma WalkContinues(round: Rounds, marker: Option<string>, fuel: nat, rest: nat,
                      kept: seq<string>, next: string)
    requires fuel == rest + 1 && round(marker) == Continue(kept, next)
    ensures Walk(round, marker, fuel) == Prepend(kept, Walk(round, Some(next), rest))
  {
  }

  /** The recursive listing and the trace-based description agree: a
      complete run decides the listing's outcome. */
  lemma {:induction false} WalkMatchesRun(round: Rounds, marker: Option<string>, fuel: nat, ms: seq<Option<string>>)
    requires CompleteRun(round, marker, fuel, ms)
    ensures Walk(round, marker, fuel) == RunOutcome(round, ms, fuel)
    decreases fuel
  {
    if fuel == 0 {
      assert |ms| == 1;
      return;
    }
    var s := round(marker);
    if !s.Continue? {
      assert ms == [marker];
      LastRound(round, marker, fuel);
    } else {
      var rest: nat := fuel - 1;
      CompleteRunTail(round, marker, fuel, ms);
      WalkMatchesRun(round, Some(s.next), rest, ms[1..]);
      RunOutcomeTail(round, ms, fuel);
      WalkContinues(round, marker, fuel, rest, s.keys, s.next);
    }
  }

  /** The listing from `marker` is r exactly when some complete run from
      `marker` has outcome r. */
  lemma WalkIff(round: Rounds, marker: Option<string>, fuel: nat, r: Result<seq<string>, Error>)
    ensures Walk(round, marker, fuel) == r <==>
      exists ms :: CompleteRun(round, marker, fuel, ms) && RunOutcome(round, ms, fuel) == r
  {
    var ms := CompleteRunExists(round, marker, fuel);
    WalkMatchesRun(round, marker, fuel, ms);
    forall ms' | CompleteRun(round, marker, fuel, ms')
      ensures RunOutcome(round, ms', fuel) == Walk(round, marker, fuel)
    {
      WalkMatchesRun(round, marker, fuel, ms');
    }
  }

  /** Every key list the paginator returns is the concatenation of the kept
      keys of the pages of a chain of requests that starts without a marker
      and ends at a page that is not truncated. */
  lemma ListingIsConcatenation(round: Rounds, fuel: nat, ks: seq<string>)
    requires Walk(round, None, fuel) == Success(ks)
    ensures exists ms :: (Chain(round, ms) && ms[0] == None && |ms| <= fuel &&
                          round(ms[|ms| - 1]).Finish? && ks == Collected(round, ms))
  {
    var ms := CompleteRunExists(round, None, fuel);
    WalkMatchesRun(round, None, fuel, ms);
    assert round(ms[|ms| - 1]).Finish?;
  }

  // ---------------------------------------------------------------------
  // The paginator itself.

  /** All the pages' key lists joined in order: a key is in the result
      exactly when it is in one of the pages. */
  function Flatten(pages: seq<seq<string>>): (flat: seq<string>)
    ensures forall k :: k in flat <==> exists i :: 0 <= i < |pages| && k in pages[i]
  {
    if pages == [] then [] else Flatten(pages[..|pages| - 1]) + pages[|pages| - 1]
  }

  /** Flatten read from the front: the first page's keys come first. */
  lemma {:induction false} FlattenFront(page: seq<string>, pages: seq<seq<string>>)
    ensures Flatten([page] + pages) == page + Flatten(pages)
    decreases |pages|
  {
    if pages != [] {
      var all := [page] + pages;
      var init := pages[..|pages| - 1];
      assert all[..|all| - 1] == [page] + init;
      assert all[|all| - 1] == pages[|pages| - 1];
      FlattenFront(page, init);
      assert page + Flatten(init) + pages[|pages| - 1] == page + (Flatten(init) + pages[|pages| - 1]);
    } else {
      assert [page] + pages == [page];
      assert [page][..0] == [];
    }
  }

  lemma PrependPrepend(a: seq<string>, b: seq<string>, r: Result<seq<string>, Error>)
    ensures Prepend(a, Prepend(b, r)) == Prepend(a + b, r)
  {
    if r.Success? {
      assert a + (b + r.value) == (a + b) + r.value;
    }
  }

  /** The callback of one round of getKeysWithPrefix: request the page,
      drop a leading key that echoes the marker, then apply the two guards
      to a truncated page. */
  method HandlePage(path: string, fetch: Fetch, marker: Option<string>) returns (step: Step)
    ensures step == Round(path, fetch, marker)
  {
    var ans := ReqKeysWithPrefix(path, fetch, marker);
    if ans.Failure? {
      return Stop(ans.error);
    }
    ghost var decided := Decide(ans.value, marker);
    assert Round(path, fetch, marker) == decided;
    var keys := ans.value.keys;
    if |keys| > 0 && Some(keys[0]) == marker {
      keys := keys[1..];
    }
    assert keys == DropEcho(ans.value.keys, marker);
    if ans.value.isTruncated {
      if |keys| < 1 {
        return Stop(TruncatedEmpty);
      }
      var nextMarker := keys[|keys| - 1];
      if nextMarker == "" || Some(nextMarker) == marker {
        return Stop(InfiniteLoop);
      }
      return Continue(keys, nextMarker);
    }
    return Finish(keys);
  }

  /** getKeysWithPrefix: request pages while they are truncated, each with
      the last kept key of the page before as its marker, and join the kept
      keys of all pages; at most `fuel` requests are made. */
  method GetKeysWithPrefix(path: string, fetch: Fetch, fuel: nat) returns (r: Result<seq<string>, Error>)
    ensures r == Walk(RoundOf(path, fetch), None, fuel)
  {
    var keys: seq<seq<string>> := [];
    var marker: Option<string> := None;
    var left: nat := fuel;
    ghost var whole := Walk(RoundOf(path, fetch), None, fuel);
    assert whole.Success? ==> [] + whole.value == whole.value;
    while true
      invariant whole == Prepend(Flatten(keys), Walk(RoundOf(path, fetch), marker, left))
      decreases left
    {
      if left == 0 {
        return Failure(Exhausted);
      }
      var step := HandlePage(path, fetch, marker);
      if step.Stop? {
        return Failure(step.err);
      }
      ghost var earlier, before := keys, Flatten(keys);
      keys := keys + [step.keys];
      assert keys[..|keys| - 1] == earlier;
      if step.Finish? {
        return Success(Flatten(keys));
      }
      ghost var sent, sentLeft := marker, left;
      marker := Some(step.next);
      left := left - 1;
      WalkContinues(RoundOf(path, fetch), sent, sentLeft, left, step.keys, step.next);
      PrependPrepend(before, step.keys, Walk(RoundOf(path, fetch), marker, left));
    }
  }

  // ---------------------------------------------------------------------
  // The behaviours the client promises, on concrete and general inputs.

  /** A path without a slash fails the listing before any page is used. */
  lemma InvalidPathFails(path: string, fetch: Fetch, fuel: nat)
    requires fuel > 0 && '/' !in path
    ensures Walk(RoundOf(path, fetch), None, fuel) == Failure(InvalidPath)
  {
    PageForRequests(path, fetch, None);
  }

  /** A request that fails in transport or in the XML parse fails the
      listing with that same error. */
  lemma TransportErrorFails(path: string, fetch: Fetch, marker: Option<string>, fuel: nat, msg: string)
    requires fuel > 0 && PageFor(path, fetch, marker) == Failure(Transport(msg))
    ensures Walk(RoundOf(path, fetch), marker, fuel) == Failure(Transport(msg))
  {
  }

  /** A truncated page that keeps no key after the echo is dropped fails the
      listing with the data-consistency error. */
  lemma TruncatedEmptyFails(path: string, fetch: Fetch, marker: Option<string>, fuel: nat, page: Page)
    requires fuel > 0 && PageFor(path, fetch, marker) == Success(page)
    requires page.isTruncated && DropEcho(page.keys, marker) == []
    ensures Walk(RoundOf(path, fetch), marker, fuel) == Failure(TruncatedEmpty)
  {
  }

  /** A truncated page whose last key is the marker just sent fails the
      listing with the infinite-loop error instead of asking again. */
  lemma NonAdvancingMarkerFails(path: string, fetch: Fetch, m: string, fuel: nat, page: Page)
    requires fuel > 0 && PageFor(path, fetch, Some(m)) == Success(page)
    requires page.isTruncated && |page.keys| > 1 && page.keys[|page.keys| - 1] == m
    ensures Walk(RoundOf(path, fetch), Some(m), fuel) == Failure(InfiniteLoop)
  {
    var kept := DropEcho(page.keys, Some(m));
    assert kept[|kept| - 1] == m;
  }

  /** A truncated page whose last kept key is empty fails the listing with
      the infinite-loop error: an empty marker cannot advance the listing. */
  lemma EmptyNextMarkerFails(path: string, fetch: Fetch, marker: Option<string>, fuel: nat, page: Page)
    requires fuel > 0 && PageFor(path, fetch, marker) == Success(page)
    requires page.isTruncated
    requires var k := DropEcho(page.keys, marker); k != [] && k[|k| - 1] == ""
    ensures Walk(RoundOf(path, fetch), marker, fuel) == Failure(InfiniteLoop)
  {
  }

  /** A truncated page that passes both guards continues the listing: its
      kept keys come first, and the next request uses its last kept key. */
  lemma TruncatedPageContinues(path: string, fetch: Fetch, marker: Option<string>, fuel: nat, page: Page)
    requires fuel > 0 && PageFor(path, fetch, marker) == Success(page)
    requires page.isTruncated
    requires var k := DropEcho(page.keys, marker);
      k != [] && k[|k| - 1] != "" && marker != Some(k[|k| - 1])
    ensures var k := DropEcho(page.keys, marker);
      Walk(RoundOf(path, fetch), marker, fuel) ==
        Prepend(k, Walk(RoundOf(path, fetch), Some(k[|k| - 1]), fuel - 1))
  {
  }

  /** A page that is not truncated ends the listing with its kept keys. */
  lemma LastPageFinishes(path: string, fetch: Fetch, marker: Option<string>, fuel: nat, page: Page)
    requires fuel > 0 && PageFor(path, fetch, marker) == Success(page)
    requires !page.isTruncated
    ensures Walk(RoundOf(path, fetch), marker, fuel) == Success(DropEcho(page.keys, marker))
  {
  }

  /** A server answering two pages: ["a","b","c"] truncated, then, for the
      marker "c", ["c","d"] not truncated. */
  function TwoPageServer(p: S3Path): (fetch: Fetch) {
    (uri: string) =>
      if uri == ListUri(p, None) then
        Success(ListDoc(Many([Entry("a"), Entry("b"), Entry("c")]), Some("true")))
      else if uri == ListUri(p, Some("c")) then
        Success(ListDoc(Many([Entry("c"), Entry("d")]), Some("false")))
      else Failure("unexpected request")
  }

  /** Against that server the listing is ["a","b","c","d"]: the echoed "c"
      is dropped exactly once. */
  lemma TwoPageListing(path: string, fuel: nat)
    requires ParseS3Path(path).Success? && fuel >= 2
    ensures Walk(RoundOf(path, TwoPageServer(ParseS3Path(path).value)), None, fuel) == Success(["a", "b", "c", "d"])
  {
    var p := ParseS3Path(path).value;
    var fetch := TwoPageServer(p);
    assert ListUri(p, Some("c")) != ListUri(p, None) by {
      assert |ListUri(p, Some("c"))| > |ListUri(p, None)|;
    }
    var first := ListDoc(Many([Entry("a"), Entry("b"), Entry("c")]), Some("true"));
    var second := ListDoc(Many([Entry("c"), Entry("d")]), Some("false"));
    assert PageFor(path, fetch, None) == Success(PageOf(first));
    assert PageFor(path, fetch, Some("c")) == Success(PageOf(second));
    assert PageOf(first).keys == ["a", "b", "c"];
    assert PageOf(second).keys == ["c", "d"];
    assert Round(path, fetch, None) == Continue(["a", "b", "c"], "c");
    assert Round(path, fetch, Some("c")) == Finish(["d"]);
    assert Walk(RoundOf(path, fetch), Some("c"), fuel - 1) == Success(["d"]);
    assert ["a", "b", "c"] + ["d"] == ["a", "b", "c", "d"];
  }
}
