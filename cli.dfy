/** The decision rules of the command-line tool (vxcube_api/__main__.py): which
    sample `download sample` picks, how `main` turns the outcome into an exit code,
    and when `subscribe-analysis` opens the progress stream. */
module Cli {
  import opened Values
  import Objects
  import Api

  // ---------------------------------------------------------------------------
  // download sample

  /** The outcome of the selection: the sample to download, the samples reported
      because their hashes differ, or nothing found. */
  datatype Selection = Selected(sample: Objects.Attrs) | Ambiguous(reported: seq<Objects.Attrs>) | NotFound

  /** `all(sample.sha256 == sha256 for sample in samples)`, read from the front. */
  function AllShare(xs: seq<Objects.Attrs>, h: Value): Result<bool>
    decreases |xs|
  {
    if xs == [] then Ok(true)
    else
      match Objects.Attr(xs[0], "sha256")
      case Err(e) => Err(e)
      case Ok(v) => if !PyEq(v, h) then Ok(false) else AllShare(xs[1..], h)
  }

  /** The samples agree exactly when every one has a hash equal to `h`. */
  lemma {:induction false} AllShareSpec(xs: seq<Objects.Attrs>, h: Value)
    ensures AllShare(xs, h) == Ok(true) <==>
            forall k :: 0 <= k < |xs| ==> "sha256" in xs[k] && PyEq(xs[k]["sha256"], h)
    decreases |xs|
  {
    if xs != [] {
      AllShareSpec(xs[1..], h);
      assert forall k :: 1 <= k < |xs| ==> xs[k] == xs[1..][k - 1];
    }
  }

  /** The fields the report line of a sample reads, the first unset one if any. */
  function MissingField(x: Objects.Attrs): Option<string> {
    if "name" !in x then Some("name")
    else if "id" !in x then Some("id")
    else if "md5" !in x then Some("md5")
    else if "sha1" !in x then Some("sha1")
    else None
  }

  /** The hashes seen so far, the samples reported, and their positions. */
  datatype Reported = Reported(seen: seq<Value>, samples: seq<Objects.Attrs>, pos: seq<nat>)

  /** Some of the first `i` recorded hashes equals `v`. */
  predicate SeenBefore(seen: seq<Value>, i: int, v: Value) {
    exists m :: 0 <= m < i && m < |seen| && PyEq(seen[m], v)
  }

  /** Some hash already seen equals `h`. */
  predicate Seen(seen: seq<Value>, h: Value) {
    SeenBefore(seen, |seen|, h)
  }

  /** The reporting loop over the samples, with its set of seen hashes: a sample
      is reported when its hash is not in the set yet. */
  function Report(xs: seq<Objects.Attrs>): Result<Reported>
    decreases |xs|
  {
    if xs == [] then Ok(Reported([], [], []))
    else
      match Report(xs[..|xs| - 1])
      case Err(e) => Err(e)
      case Ok(prev) =>
        var x := xs[|xs| - 1];
        if "sha256" !in x then Err(AttributeError("sha256"))
        else
          var h := x["sha256"];
          if h.List? || h.Object? then Err(TypeError("unhashable type"))
          else if Seen(prev.seen, h) then Ok(prev)
          else
            match MissingField(x)
            case Some(f) => Err(AttributeError(f))
            case None => Ok(Reported(prev.seen + [h], prev.samples + [x], prev.pos + [|xs| - 1]))
  }

  /** The hash of a sample, None when it has none. */
  function HashOf(x: Objects.Attrs): Value {
    if "sha256" in x then x["sha256"] else Null
  }

  predicate AllHashed(xs: seq<Objects.Attrs>) {
    forall k :: 0 <= k < |xs| ==> "sha256" in xs[k]
  }

  /** The reported samples are samples of `xs`, at increasing positions, with
      their hashes recorded alongside. */
  predicate Placed(xs: seq<Objects.Attrs>, r: Reported) {
    && |r.seen| == |r.samples| == |r.pos|
    && (forall i :: 0 <= i < |r.pos| ==>
          r.pos[i] < |xs| && r.samples[i] == xs[r.pos[i]] && r.seen[i] == HashOf(xs[r.pos[i]]))
    && (forall i, j :: 0 <= i < j < |r.pos| ==> r.pos[i] < r.pos[j])
  }

  /** No two reported hashes are equal. */
  predicate Unrepeated(seen: seq<Value>) {
    forall i, j :: 0 <= i < j < |seen| ==> !PyEq(seen[i], seen[j])
  }

  /** Some sample reported at a position up to `bound` has a hash equal to `v`. */
  predicate ReportedBy(r: Reported, bound: int, v: Value) {
    exists i :: 0 <= i < |r.pos| && i < |r.seen| && r.pos[i] <= bound && PyEq(r.seen[i], v)
  }

  /** Every sample's hash is that of a sample reported at or before it. */
  predicate Covered(xs: seq<Objects.Attrs>, r: Reported) {
    forall k {:trigger ReportedBy(r, k, HashOf(xs[k]))} :: 0 <= k < |xs| ==> ReportedBy(r, k, HashOf(xs[k]))
  }

  /** Every sample before a reported one shares the hash of an earlier reported one. */
  predicate FirstSeen(xs: seq<Objects.Attrs>, r: Reported) {
    forall i, k {:trigger SeenBefore(r.seen, i, HashOf(xs[k]))} ::
      0 <= i < |r.pos| && 0 <= k < r.pos[i] && k < |xs| ==> SeenBefore(r.seen, i, HashOf(xs[k]))
  }

  predicate WellReported(xs: seq<Objects.Attrs>, r: Reported) {
    AllHashed(xs) && Placed(xs, r) && Unrepeated(r.seen) && Covered(xs, r) && FirstSeen(xs, r)
  }

  /** Every hash is reported once, and in first-seen order. */
  lemma {:induction false} ReportSpec(xs: seq<Objects.Attrs>)
    ensures Report(xs).Ok? ==> WellReported(xs, Report(xs).value)
    decreases |xs|
  {
    if xs != [] && Report(xs).Ok? {
      var n := |xs| - 1;
      var init := xs[..n];
      ReportSpec(init);
      ReportStep(xs);
      var prev := Report(init).value;
      if Seen(prev.seen, HashOf(xs[n])) {
        ReportSkip(xs, init, prev);
      } else {
        ReportAdd(xs, init, prev, Report(xs).value);
      }
    }
  }

  /** One step of the reporting loop, read off its definition. */
  lemma {:induction false} ReportStep(xs: seq<Objects.Attrs>)
    requires xs != [] && Report(xs).Ok?
    ensures var n := |xs| - 1;
      && Report(xs[..n]).Ok?
      && "sha256" in xs[n] && !HashOf(xs[n]).List? && !HashOf(xs[n]).Object?
      && var prev := Report(xs[..n]).value;
      (Seen(prev.seen, HashOf(xs[n])) ==> Report(xs).value == prev)
      && (!Seen(prev.seen, HashOf(xs[n])) ==>
            Report(xs).value == Reported(prev.seen + [HashOf(xs[n])], prev.samples + [xs[n]], prev.pos + [n]))
  {
  }

  lemma {:induction false} ReportSkip(xs: seq<Objects.Attrs>, init: seq<Objects.Attrs>, prev: Reported)
    requires xs != [] && init == xs[..|xs| - 1] && "sha256" in xs[|xs| - 1]
    requires WellReported(init, prev)
    requires Seen(prev.seen, HashOf(xs[|xs| - 1]))
    ensures WellReported(xs, prev)
  {
    SkipHashed(xs, init);
    SkipPlaced(xs, init, prev);
    SkipCovered(xs, init, prev);
    SkipFirstSeen(xs, init, prev);
  }

  lemma {:induction false} SkipHashed(xs: seq<Objects.Attrs>, init: seq<Objects.Attrs>)
    requires xs != [] && init == xs[..|xs| - 1] && "sha256" in xs[|xs| - 1] && AllHashed(init)
    ensures AllHashed(xs)
  {
    forall k | 0 <= k < |xs| ensures "sha256" in xs[k] {
      if k < |init| { assert init[k] == xs[k]; }
    }
  }

  lemma {:induction false} SkipPlaced(xs: seq<Objects.Attrs>, init: seq<Objects.Attrs>, prev: Reported)
    requires xs != [] && init == xs[..|xs| - 1] && Placed(init, prev)
    ensures Placed(xs, prev)
  {
    forall i | 0 <= i < |prev.pos|
      ensures prev.pos[i] < |xs| && prev.samples[i] == xs[prev.pos[i]] && prev.seen[i] == HashOf(xs[prev.pos[i]])
    {
      assert init[prev.pos[i]] == xs[prev.pos[i]];
    }
  }

  lemma {:induction false} SkipCovered(xs: seq<Objects.Attrs>, init: seq<Objects.Attrs>, prev: Reported)
    requires xs != [] && init == xs[..|xs| - 1] && Placed(init, prev) && Covered(init, prev)
    requires Seen(prev.seen, HashOf(xs[|xs| - 1]))
    ensures Covered(xs, prev)
  {
    forall k | 0 <= k < |xs| ensures ReportedBy(prev, k, HashOf(xs[k])) {
      if k < |xs| - 1 {
        CoveredEarlier(xs, init, prev, k);
      } else {
        CoveredLast(xs, init, prev);
      }
    }
  }

  lemma {:induction false} CoveredEarlier(xs: seq<Objects.Attrs>, init: seq<Objects.Attrs>, prev: Reported, k: nat)
    requires xs != [] && init == xs[..|xs| - 1] && Covered(init, prev)
    requires k < |xs| - 1
    ensures ReportedBy(prev, k, HashOf(xs[k]))
  {
    assert init[k] == xs[k];
    assert ReportedBy(prev, k, HashOf(init[k]));
  }

  lemma {:induction false} CoveredLast(xs: seq<Objects.Attrs>, init: seq<Objects.Attrs>, prev: Reported)
    requires xs != [] && init == xs[..|xs| - 1] && Placed(init, prev)
    requires Seen(prev.seen, HashOf(xs[|xs| - 1]))
    ensures ReportedBy(prev, |xs| - 1, HashOf(xs[|xs| - 1]))
  {
    var n := |xs| - 1;
    var h := HashOf(xs[n]);
    assert SeenBefore(prev.seen, |prev.seen|, h);
    var i :| 0 <= i < |prev.seen| && i < |prev.seen| && PyEq(prev.seen[i], h);
    assert prev.pos[i] < n;
  }

  lemma {:induction false} SkipFirstSeen(xs: seq<Objects.Attrs>, init: seq<Objects.Attrs>, prev: Reported)
    requires xs != [] && init == xs[..|xs| - 1] && Placed(init, prev) && FirstSeen(init, prev)
    ensures FirstSeen(xs, prev)
  {
    forall i, k | 0 <= i < |prev.pos| && 0 <= k < prev.pos[i] && k < |xs|
      ensures SeenBefore(prev.seen, i, HashOf(xs[k]))
    {
      assert prev.pos[i] < |init|;
      assert init[k] == xs[k];
      assert SeenBefore(prev.seen, i, HashOf(init[k]));
    }
  }

  lemma {:induction false} ReportAdd(xs: seq<Objects.Attrs>, init: seq<Objects.Attrs>, prev: Reported, r: Reported)
    requires xs != [] && init == xs[..|xs| - 1] && "sha256" in xs[|xs| - 1]
    requires !HashOf(xs[|xs| - 1]).List? && !HashOf(xs[|xs| - 1]).Object?
    requires WellReported(init, prev)
    requires !Seen(prev.seen, HashOf(xs[|xs| - 1]))
    requires r == Reported(prev.seen + [HashOf(xs[|xs| - 1])], prev.samples + [xs[|xs| - 1]], prev.pos + [|xs| - 1])
    ensures WellReported(xs, r)
  {
    var n := |xs| - 1;
    assert forall k :: 0 <= k < n ==> init[k] == xs[k];
    assert AllHashed(xs);
    assert Placed(xs, r);
    assert Unrepeated(r.seen);
    ReportAddCovered(xs, init, prev, r, HashOf(xs[n]));
    ReportAddFirstSeen(xs, init, prev, r);
  }

  lemma {:induction false} ReportAddCovered(xs: seq<Objects.Attrs>, init: seq<Objects.Attrs>, prev: Reported, r: Reported, h: Value)
    requires xs != [] && init == xs[..|xs| - 1] && Covered(init, prev) && |prev.seen| == |prev.pos|
    requires !h.List? && !h.Object? && HashOf(xs[|xs| - 1]) == h
    requires r == Reported(prev.seen + [h], prev.samples + [xs[|xs| - 1]], prev.pos + [|xs| - 1])
    ensures Covered(xs, r)
  {
    var n := |xs| - 1;
    forall k | 0 <= k < |xs| ensures ReportedBy(r, k, HashOf(xs[k])) {
      if k < n {
        assert init[k] == xs[k];
        assert ReportedBy(prev, k, HashOf(init[k]));
        var i :| 0 <= i < |prev.pos| && i < |prev.seen| && prev.pos[i] <= k && PyEq(prev.seen[i], HashOf(init[k]));
        assert r.seen[i] == prev.seen[i] && r.pos[i] == prev.pos[i];
      } else {
        assert PyEq(h, h);
        assert r.seen[|prev.pos|] == h && r.pos[|prev.pos|] == n;
      }
    }
  }

  lemma {:induction false} ReportAddFirstSeen(xs: seq<Objects.Attrs>, init: seq<Objects.Attrs>, prev: Reported, r: Reported)
    requires xs != [] && init == xs[..|xs| - 1] && Covered(init, prev) && FirstSeen(init, prev)
    requires Placed(init, prev)
    requires r.seen == prev.seen + [HashOf(xs[|xs| - 1])] && r.pos == prev.pos + [|xs| - 1]
    ensures FirstSeen(xs, r)
  {
    forall i, k | 0 <= i < |r.pos| && 0 <= k < r.pos[i] && k < |xs|
      ensures SeenBefore(r.seen, i, HashOf(xs[k]))
    {
      if i < |prev.pos| {
        FirstSeenOld(xs, init, prev, r, i, k);
      } else {
        FirstSeenNew(xs, init, prev, r, k);
      }
    }
  }

  lemma {:induction false} FirstSeenOld(xs: seq<Objects.Attrs>, init: seq<Objects.Attrs>, prev: Reported, r: Reported, i: nat, k: nat)
    requires xs != [] && init == xs[..|xs| - 1] && FirstSeen(init, prev) && Placed(init, prev)
    requires r.seen == prev.seen + [HashOf(xs[|xs| - 1])]
    requires i < |prev.pos| && k < prev.pos[i]
    ensures SeenBefore(r.seen, i, HashOf(xs[k]))
  {
    assert k < |init| && init[k] == xs[k];
    assert SeenBefore(prev.seen, i, HashOf(init[k]));
    var m :| 0 <= m < i && m < |prev.seen| && PyEq(prev.seen[m], HashOf(init[k]));
    assert r.seen[m] == prev.seen[m];
  }

  lemma {:induction false} FirstSeenNew(xs: seq<Objects.Attrs>, init: seq<Objects.Attrs>, prev: Reported, r: Reported, k: nat)
    requires xs != [] && init == xs[..|xs| - 1] && Covered(init, prev) && Placed(init, prev)
    requires r.seen == prev.seen + [HashOf(xs[|xs| - 1])]
    requires k < |init|
    ensures SeenBefore(r.seen, |prev.pos|, HashOf(xs[k]))
  {
    assert init[k] == xs[k];
    assert ReportedBy(prev, k, HashOf(init[k]));
    var m :| 0 <= m < |prev.pos| && m < |prev.seen| && prev.pos[m] <= k && PyEq(prev.seen[m], HashOf(init[k]));
    assert r.seen[m] == prev.seen[m];
  }

  /** `download_sample`'s choice, given what `samples(...)` returned. */
  function SelectSample(samples: Api.Built<Objects.Attrs>): Result<Selection> {
    match samples
    case One(s) => Ok(Selected(s))
    case Many(xs) =>
      if |xs| == 1 then Ok(Selected(xs[0]))
      else if |xs| > 1 then
        match Objects.Attr(xs[0], "sha256")
        case Err(e) => Err(e)
        case Ok(h) =>
          match AllShare(xs, h)
          case Err(e) => Err(e)
          case Ok(true) => Ok(Selected(xs[0]))
          case Ok(false) =>
            match Report(xs)
            case Err(e) => Err(e)
            case Ok(r) => Ok(Ambiguous(r.samples))
      else Ok(NotFound)
    case Nothing => Err(TypeError("object of type 'NoneType' has no len()"))
  }

  /** One sample, or a list of one, is downloaded; several samples with the same
      hash give the first; several with different hashes download nothing; an
      empty list finds nothing; None fails at `len`. */
  lemma {:induction false} SelectSampleSpec(samples: Api.Built<Objects.Attrs>)
    ensures samples.One? ==> SelectSample(samples) == Ok(Selected(samples.obj))
    ensures samples.Many? && |samples.objs| == 1 ==> SelectSample(samples) == Ok(Selected(samples.objs[0]))
    ensures samples.Many? && |samples.objs| == 0 ==> SelectSample(samples) == Ok(NotFound)
    ensures samples.Nothing? ==> SelectSample(samples).Err?
    ensures samples.Many? && |samples.objs| > 1 && "sha256" in samples.objs[0] ==>
              var xs := samples.objs;
              (SelectSample(samples) == Ok(Selected(xs[0])) <==>
                 forall k :: 0 <= k < |xs| ==> "sha256" in xs[k] && PyEq(xs[k]["sha256"], xs[0]["sha256"]))
    ensures SelectSample(samples).Ok? && SelectSample(samples).value.Ambiguous? ==>
              samples.Many? && SelectSample(samples).value.reported == Report(samples.objs).value.samples
    ensures samples.Many? && |samples.objs| > 1 && "sha256" in samples.objs[0] &&
            AllShare(samples.objs, samples.objs[0]["sha256"]) == Ok(false) ==>
              SelectSample(samples) == (match Report(samples.objs)
                                        case Err(e) => Err(e)
                                        case Ok(r) => Ok(Ambiguous(r.samples)))
  {
    if samples.Many? && |samples.objs| > 1 && "sha256" in samples.objs[0] {
      var xs := samples.objs;
      AllShareSpec(xs, xs[0]["sha256"]);
      if SelectSample(samples) == Ok(Selected(xs[0])) {
        assert AllShare(xs, xs[0]["sha256"]) == Ok(true);
      }
    }
  }

  /** The reporting loop of `download_sample`, with its set of seen hashes. */
  method ReportDistinct(xs: seq<Objects.Attrs>) returns (r: Result<seq<Objects.Attrs>>)
    ensures r.Ok? <==> Report(xs).Ok?
    ensures r.Ok? ==> r.value == Report(xs).value.samples
    ensures r.Err? ==> r.error == Report(xs).error
  {
    var seen: seq<Value> := [];
    var reported: seq<Objects.Attrs> := [];
    ghost var pos: seq<nat> := [];
    var k := 0;
    assert xs[..0] == [];
    while k < |xs|
      invariant 0 <= k <= |xs|
      invariant Report(xs[..k]) == Ok(Reported(seen, reported, pos))
    {
      ReportTurn(xs, k, Reported(seen, reported, pos));
      var x := xs[k];
      if "sha256" !in x {
        return Err(AttributeError("sha256"));
      }
      var h := x["sha256"];
      if h.List? || h.Object? {
        return Err(TypeError("unhashable type"));
      }
      var known := false;
      var i := 0;
      while i < |seen|
        invariant 0 <= i <= |seen|
        invariant known <==> exists j :: 0 <= j < i && PyEq(seen[j], h)
      {
        if PyEq(seen[i], h) {
          known := true;
        }
        i := i + 1;
      }
      if !known {
        var missing := MissingField(x);
        if missing.Some? {
          return Err(AttributeError(missing.value));
        }
        seen := seen + [h];
        reported := reported + [x];
        pos := pos + [k];
      }
      k := k + 1;
    }
    assert xs[..k] == xs;
    return Ok(reported);
  }

  /** One turn of the reporting loop, seen from the whole list: the sample at `k`
      ends the report with an error, or extends it by at most one entry. */
  lemma {:induction false} ReportTurn(xs: seq<Objects.Attrs>, k: nat, prev: Reported)
    requires k < |xs| && Report(xs[..k]) == Ok(prev)
    ensures var x := xs[k];
      && ("sha256" !in x ==> Report(xs) == Err(AttributeError("sha256")))
      && ("sha256" in x && (x["sha256"].List? || x["sha256"].Object?) ==>
            Report(xs) == Err(TypeError("unhashable type")))
      && ("sha256" in x && !x["sha256"].List? && !x["sha256"].Object? && Seen(prev.seen, x["sha256"]) ==>
            Report(xs[..k + 1]) == Ok(prev))
      && (&& "sha256" in x && !x["sha256"].List? && !x["sha256"].Object? && !Seen(prev.seen, x["sha256"])
          && MissingField(x).Some?
          ==> Report(xs) == Err(AttributeError(MissingField(x).value)))
      && (&& "sha256" in x && !x["sha256"].List? && !x["sha256"].Object? && !Seen(prev.seen, x["sha256"])
          && MissingField(x).None?
          ==>
            Report(xs[..k + 1]) == Ok(Reported(prev.seen + [x["sha256"]], prev.samples + [x], prev.pos + [k])))
  {
    var p := xs[..k + 1];
    assert p[..|p| - 1] == xs[..k] && p[|p| - 1] == xs[k];
    if Report(p).Err? {
      ReportStops(xs, k + 1);
    }
  }

  lemma {:induction false} ReportStops(xs: seq<Objects.Attrs>, n: nat)
    requires 0 < n <= |xs| && Report(xs[..n]).Err?
    ensures Report(xs) == Report(xs[..n])
    decreases |xs| - n
  {
    if n < |xs| {
      var p := xs[..n + 1];
      assert p[..|p| - 1] == xs[..n];
      assert Report(p) == Report(xs[..n]);
      ReportStops(xs, n + 1);
    } else {
      assert xs[..n] == xs;
    }
  }

  /** The selection as the command runs it. */
  method DownloadSelection(samples: Api.Built<Objects.Attrs>) returns (r: Result<Selection>)
    ensures r == SelectSample(samples)
  {
    if samples.One? {
      return Ok(Selected(samples.obj));
    }
    if samples.Nothing? {
      return Err(TypeError("object of type 'NoneType' has no len()"));
    }
    var xs := samples.objs;
    if |xs| == 1 {
      return Ok(Selected(xs[0]));
    }
    if |xs| == 0 {
      return Ok(NotFound);
    }
    var first := Objects.Attr(xs[0], "sha256");
    if first.Err? {
      return Err(first.error);
    }
    var same := AllShare(xs, first.value);
    if same.Err? {
      return Err(same.error);
    }
    if same.value {
      return Ok(Selected(xs[0]));
    }
    var reported := ReportDistinct(xs);
    if reported.Err? {
      return Err(reported.error);
    }
    return Ok(Ambiguous(reported.value));
  }

  /** Two samples with hashes "testsha256" and "testsha256-2" are both reported. */
  lemma {:induction false} AmbiguousExample(a: Objects.Attrs, b: Objects.Attrs)
    requires MissingField(a).None? && MissingField(b).None?
    requires "sha256" in a && a["sha256"] == Str("testsha256")
    requires "sha256" in b && b["sha256"] == Str("testsha256-2")
    ensures SelectSample(Api.Many([a, b])) == Ok(Ambiguous([a, b]))
  {
    var xs := [a, b];
    var ha, hb := Str("testsha256"), Str("testsha256-2");
    assert [a][..0] == [];
    assert Report([a][..0]) == Ok(Reported([], [], []));
    assert !Seen([], ha);
    assert Report([a]) == Ok(Reported([] + [ha], [] + [a], [] + [0]));
    assert [] + [ha] == [ha] && [] + [a] == [a] && [] + [0] == [0];
    assert xs[..1] == [a];
    assert !PyEq(ha, hb) && !Seen([ha], hb);
    assert Report(xs) == Ok(Reported([ha] + [hb], [a] + [b], [0] + [1]));
    assert [ha] + [hb] == [ha, hb] && [a] + [b] == [a, b] && [0] + [1] == [0, 1];
    assert xs[1..] == [b] && xs[1..][1..] == [];
    assert AllShare(xs, ha) == Ok(false);
  }

  // ---------------------------------------------------------------------------
  // main

  /** What leaves `cli()`: a normal return, a `sys.exit(code)` (which `main` does
      not catch), or an exception. */
  datatype CliOutcome = Returned | SysExit(code: int) | Raised(error: Exception)

  /** `main`'s exit code. */
  function ExitCode(o: CliOutcome): int {
    match o
    case Returned => 0
    case SysExit(c) => c
    case Raised(e) =>
      if e.ApiError? || e.HttpError? then -1
      else if e.KeyboardInterrupt? then -2
      else -3
  }

  /** A normal run exits with 0, the API's own exceptions with -1, an interrupt
      with -2 and every other exception with -3; an exit the command asked for
      keeps its code. */
  lemma {:induction false} ExitCodeSpec(o: CliOutcome)
    ensures o == Returned ==> ExitCode(o) == 0
    ensures o.Raised? ==> ExitCode(o) < 0
    ensures o.Raised? ==> (ExitCode(o) == -1 <==> o.error.ApiError? || o.error.HttpError?)
    ensures o.Raised? ==> (ExitCode(o) == -2 <==> o.error == KeyboardInterrupt)
    ensures o.Raised? ==> (ExitCode(o) == -3 <==> !(o.error.ApiError? || o.error.HttpError? || o.error == KeyboardInterrupt))
    ensures o.SysExit? ==> ExitCode(o) == o.code
  {
  }

  // ---------------------------------------------------------------------------
  // subscribe-analysis

  /** Building one task's line of `tasks_msg`: the `platform_code` is formatted
      with `<13` first, then the `id` is used as a dictionary key. */
  function LabelError(t: Objects.Attrs): Option<Exception> {
    if "platform_code" !in t then Some(AttributeError("platform_code"))
    else if t["platform_code"].Null? || t["platform_code"].List? || t["platform_code"].Object? ||
            t["platform_code"].Handle?
    then Some(TypeError("unsupported format string"))
    else if "id" !in t then Some(AttributeError("id"))
    else if t["id"].List? || t["id"].Object? then Some(TypeError("unhashable type"))
    else None
  }

  /** The final report line of one task, `msg.format(task=task)`: it reads the
      `id`, `platform_code`, `status` and `maliciousness` slots, in that order. */
  function SummaryError(t: Objects.Attrs): Option<Exception> {
    if "id" !in t then Some(AttributeError("id"))
    else if "platform_code" !in t then Some(AttributeError("platform_code"))
    else if "status" !in t then Some(AttributeError("status"))
    else if "maliciousness" !in t then Some(AttributeError("maliciousness"))
    else None
  }

  /** A loop over the tasks that builds one line per task: the first task whose
      line cannot be built raises, and it raises only when some task's line cannot
      be built. */
  function FirstFailing(ts: seq<Objects.Attrs>, line: Objects.Attrs -> Option<Exception>): (r: Option<Exception>)
    ensures r.None? <==> forall k :: 0 <= k < |ts| ==> line(ts[k]).None?
    ensures r.Some? ==> exists k :: 0 <= k < |ts| && line(ts[k]) == r &&
                                    forall j :: 0 <= j < k ==> line(ts[j]).None?
    decreases |ts|
  {
    if ts == [] then None
    else if line(ts[0]).Some? then line(ts[0])
    else
      var rest := FirstFailing(ts[1..], line);
      assert forall k :: 1 <= k < |ts| ==> ts[k] == ts[1..][k - 1];
      if rest.Some? then
        var k :| 0 <= k < |ts| - 1 && line(ts[1..][k]) == rest &&
                 forall j :: 0 <= j < k ==> line(ts[1..][j]).None?;
        assert line(ts[k + 1]) == rest && forall j :: 0 <= j < k + 1 ==> line(ts[j]).None?;
        rest
      else rest
  }

  /** The per-task line loop, `for task in analysis.tasks`, stopping at the first
      task whose line cannot be built. */
  method BuildLines(ts: seq<Objects.Attrs>, line: Objects.Attrs -> Option<Exception>) returns (r: Option<Exception>)
    ensures r == FirstFailing(ts, line)
  {
    var i := 0;
    while i < |ts|
      invariant 0 <= i <= |ts|
      invariant forall j :: 0 <= j < i ==> line(ts[j]).None?
    {
      var e := line(ts[i]);
      if e.Some? {
        FirstFailingAt(ts, line, i);
        return e;
      }
      i := i + 1;
    }
    return None;
  }

  /** The first task whose line fails decides the loop's exception. */
  lemma {:induction false} FirstFailingAt(ts: seq<Objects.Attrs>, line: Objects.Attrs -> Option<Exception>, i: nat)
    requires i < |ts| && line(ts[i]).Some? && forall j :: 0 <= j < i ==> line(ts[j]).None?
    ensures FirstFailing(ts, line) == line(ts[i])
  {
    var r := FirstFailing(ts, line);
    var k :| 0 <= k < |ts| && line(ts[k]) == r && forall j :: 0 <= j < k ==> line(ts[j]).None?;
    assert k == i;
  }

  /** `subscribe-analysis`: every task's line is built first; then the progress
      stream is read (to the end) only while the analysis is processing; then,
      unless something was raised, the final line of every task is built from
      its state after the subscription. */
  function SubscribeCommand(s: Objects.AnalysisState, base: Objects.Url, headers: map<string, string>,
                            sock: Objects.Socket, refresh: Result<Value>): Objects.Subscription {
    match FirstFailing(s.tasks, LabelError)
    case Some(e) => Objects.Subscription([], [], s, Some(e))
    case None =>
      var r :=
        match Objects.AnyProcessing(s.tasks)
        case Err(e) => Objects.Subscription([], [], s, Some(e))
        case Ok(false) => Objects.Subscription([], [], s, None)
        case Ok(true) => Objects.Subscribe(s, base, headers, sock, None, refresh);
      if r.raised.Some? then r else r.(raised := FirstFailing(r.state.tasks, SummaryError))
  }

  /** A connection is made only for a processing analysis whose task lines could
      all be built, which then connects to the stream address rather than meeting
      the "All tasks finished" refusal; a task whose line cannot be built raises
      before any connection; an analysis that is not processing is left as it is,
      and only its final lines can raise. */
  lemma {:induction false} SubscribeCommandSpec(s: Objects.AnalysisState, base: Objects.Url, headers: map<string, string>,
                             sock: Objects.Socket, refresh: Result<Value>)
    ensures var r := SubscribeCommand(s, base, headers, sock, refresh);
      var labels := FirstFailing(s.tasks, LabelError);
      && (r.actions != [] ==> labels == None && Objects.AnyProcessing(s.tasks) == Ok(true))
      && (labels.Some? ==> r == Objects.Subscription([], [], s, labels))
      && (labels == None && Objects.AnyProcessing(s.tasks) == Ok(true) ==>
            var sub := Objects.Subscribe(s, base, headers, sock, None, refresh);
            && (r.events, r.actions, r.state) == (sub.events, sub.actions, sub.state)
            && r.raised == if sub.raised.Some? then sub.raised else FirstFailing(sub.state.tasks, SummaryError))
      && (labels == None && Objects.AnyProcessing(s.tasks) == Ok(false) ==>
            r == Objects.Subscription([], [], s, FirstFailing(s.tasks, SummaryError)))
      && (labels == None && Objects.AnyProcessing(s.tasks) == Ok(true) &&
          Objects.ApiCheck(s.attrs, "analyses") == None ==>
            r.actions[0] == Objects.Connect(Objects.StreamUrl(base), headers))
  {
    if FirstFailing(s.tasks, LabelError) == None && Objects.AnyProcessing(s.tasks) == Ok(true) &&
       Objects.ApiCheck(s.attrs, "analyses") == None {
      Objects.SubscribeSpec(s, base, headers, sock, None, refresh);
    }
  }
}
