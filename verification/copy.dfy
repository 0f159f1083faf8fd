/** `Copy`: list the subjects of one registry, and for each in turn fetch
    its latest schema and register it on another registry under a renamed
    subject, stopping at the first failure. Nothing is rolled back. */
module Copying {

  import opened Http
  import opened Subjects
  import opened Formats
  import opened Routes
  import opened Requests
  import opened Client

  /** pat occurs in s starting at index i. */
  predicate OccursAt(s: string, pat: string, i: int) {
    0 <= i && i + |pat| <= |s| && s[i..i + |pat|] == pat
  }

  /** pat does not occur in s before index n. */
  predicate AbsentBefore(s: string, pat: string, n: int) {
    forall j :: 0 <= j < n ==> !OccursAt(s, pat, j)
  }

  /** i is the first index where pat occurs in s. */
  predicate FirstAt(s: string, pat: string, i: int) {
    OccursAt(s, pat, i) && AbsentBefore(s, pat, i)
  }

  /** The first index at or after `from` where pat occurs in s. */
  function FindFrom(s: string, pat: string, from: nat): (r: Option<nat>)
    requires AbsentBefore(s, pat, from)
    ensures r.Some? ==> FirstAt(s, pat, r.value)
    ensures r.None? ==> AbsentBefore(s, pat, |s| + 1)
    decreases |s| - from
  {
    if from + |pat| > |s| then None
    else if s[from..from + |pat|] == pat then Some(from)
    else FindFrom(s, pat, from + 1)
  }

  /** strings.Replace(s, pattern, replacement, 1): the first occurrence of
      pattern, wherever it is in s, becomes replacement; without one s is
      unchanged. An empty pattern occurs at index 0, so the replacement is
      then put in front. */
  function ReplaceFirst(s: string, pattern: string, replacement: string): (r: string)
    ensures AbsentBefore(s, pattern, |s| + 1) ==> r == s
    ensures forall i :: FirstAt(s, pattern, i) ==> r == s[..i] + replacement + s[i + |pattern|..]
  {
    match FindFrom(s, pattern, 0)
    case None => s
    case Some(i) => s[..i] + replacement + s[i + |pattern|..]
  }

  /** A leading occurrence is replaced, so a true prefix is swapped out. */
  lemma ReplaceLeadingPrefix(s: string, pattern: string, replacement: string)
    requires pattern <= s
    ensures ReplaceFirst(s, pattern, replacement) == replacement + s[|pattern|..]
  {
    assert s[0..|pattern|] == pattern;
    assert FindFrom(s, pattern, 0) == Some(0);
    assert s[..0] + replacement == replacement;
  }

  /** The occurrence need not be at the start: replacing "a" with "c",
      "a-value" becomes "c-value" but "b-value" becomes "b-vclue". */
  lemma ReplaceIsNotPrefixOnly()
    ensures ReplaceFirst("a-value", "a", "c") == "c-value"
    ensures ReplaceFirst("b-value", "a", "c") == "b-vclue"
  {
    assert "a-value"[0..1] == "a";
    assert OccursAt("a-value", "a", 0);
    assert "a-value"[1..] == "-value";
    assert "b-value"[0..1] == "b" && "b-value"[1..2] == "-" && "b-value"[2..3] == "v";
    assert "b-value"[3..4] == "a";
    assert OccursAt("b-value", "a", 3);
    assert "b-value"[..3] == "b-v" && "b-value"[4..] == "lue";
  }

  /** The outcome of Copy: the number of subjects copied, the error that
      stopped it, and the requests sent in order. */
  datatype Report = Report(count: nat, err: Option<Error>, sent: seq<Request>)

  /** One turn of the loop: fetch the latest schema of s from fromUrl and
      register it on toUrl under the subject target (Copy passes the
      renamed s); the value is the new id. */
  function CopySubject(client: Transport, codec: Codec, fromUrl: string, toUrl: string, s: Subject, target: Subject): (r: Call<uint32>)
    ensures var latest := GetLatestSchema(client, codec, fromUrl, s);
            var registered := Register(client, codec, toUrl, target, latest.value.schema);
            && (r.err.None? <==> latest.err.None? && registered.err.None?)
            && (latest.err.Some? ==> r.err == latest.err && r.sent == latest.sent)
            && (latest.err.None? ==> r.err == registered.err && r.sent == latest.sent + registered.sent)
    ensures |r.sent| <= 2
    ensures forall q :: q in r.sent ==>
              Addresses(codec, fromUrl, q, SubjectVersion(s, "latest")) || Addresses(codec, toUrl, q, RegisterSchema(target))
  {
    var latest := GetLatestSchema(client, codec, fromUrl, s);
    if latest.err.Some? then Call(0, latest.err, latest.sent)
    else
      var registered := Register(client, codec, toUrl, target, latest.value.schema);
      Call(registered.value, registered.err, latest.sent + registered.sent)
  }

  /** The first request of a loop turn is the latest-version read of s
      on the source registry. */
  lemma FirstRequestReadsLatest(client: Transport, codec: Codec, fromUrl: string, toUrl: string, s: Subject, target: Subject)
    requires Segment(s)
    ensures var r := CopySubject(client, codec, fromUrl, toUrl, s, target);
            |r.sent| > 0 ==> Route(BasePath(codec.parseUrl(fromUrl).value), r.sent[0]) == Some(SubjectVersion(s, "latest"))
  {
    var r := CopySubject(client, codec, fromUrl, toUrl, s, target);
    var latest := GetLatestSchema(client, codec, fromUrl, s);
    if |r.sent| > 0 {
      assert |latest.sent| > 0;
      assert r.sent[0] == latest.sent[0];
      AddressedRequestReachesEndpoint(codec, fromUrl, r.sent[0], SubjectVersion(s, "latest"));
    }
  }

  /** The second request of a loop turn, when there is one, registers
      under target on the destination registry. */
  lemma SecondRequestRegisters(client: Transport, codec: Codec, fromUrl: string, toUrl: string, s: Subject, target: Subject)
    requires Segment(target)
    ensures var r := CopySubject(client, codec, fromUrl, toUrl, s, target);
            |r.sent| > 1 ==> Route(BasePath(codec.parseUrl(toUrl).value), r.sent[1]) == Some(RegisterSchema(target))
  {
    var r := CopySubject(client, codec, fromUrl, toUrl, s, target);
    var latest := GetLatestSchema(client, codec, fromUrl, s);
    if |r.sent| > 1 {
      var registered := Register(client, codec, toUrl, target, latest.value.schema);
      assert latest.err.None? && |latest.sent| == 1;
      assert r.sent == latest.sent + registered.sent;
      assert r.sent[1] == registered.sent[0];
      AddressedRequestReachesEndpoint(codec, toUrl, r.sent[1], RegisterSchema(target));
    }
  }

  /** For well-formed subjects, one turn of the loop first reads the
      latest version of s on the source registry and then, if it goes on,
      registers under target on the destination registry. */
  lemma CopySubjectReachesEndpoints(client: Transport, codec: Codec, fromUrl: string, toUrl: string, s: Subject, target: Subject)
    requires Segment(s) && Segment(target)
    ensures var r := CopySubject(client, codec, fromUrl, toUrl, s, target);
            && (|r.sent| > 0 ==> Route(BasePath(codec.parseUrl(fromUrl).value), r.sent[0]) == Some(SubjectVersion(s, "latest")))
            && (|r.sent| > 1 ==> Route(BasePath(codec.parseUrl(toUrl).value), r.sent[1]) == Some(RegisterSchema(target)))
  {
    FirstRequestReadsLatest(client, codec, fromUrl, toUrl, s, target);
    SecondRequestRegisters(client, codec, fromUrl, toUrl, s, target);
  }

  /** The requests of running step over each subject of ss in turn. */
  function Trace(step: Subject -> Call<uint32>, ss: seq<Subject>): seq<Request> {
    if ss == [] then [] else step(ss[0]).sent + Trace(step, ss[1..])
  }

  /** The loop body succeeded on each of the first n subjects. */
  predicate SucceededOn(step: Subject -> Call<uint32>, subjects: seq<Subject>, n: int) {
    forall i :: 0 <= i < n && i < |subjects| ==> step(subjects[i]).err.None?
  }

  /** The loop of Copy, with the loop body as a parameter. Subjects are
      handled in list order; the first failure, at index count, ends the
      loop with that subject's error, and nothing after it is run. */
  function CopyAll(step: Subject -> Call<uint32>, subjects: seq<Subject>): (r: Report)
    ensures r.count <= |subjects|
    ensures r.err.None? <==> r.count == |subjects|
    ensures SucceededOn(step, subjects, r.count)
    ensures r.err.Some? ==> r.err == step(subjects[r.count]).err
    ensures r.sent == Trace(step, subjects[..if r.err.None? then r.count else r.count + 1])
  {
    if subjects == [] then Report(0, None, [])
    else
      var first := step(subjects[0]);
      if first.err.Some? then
        assert subjects[..1][1..] == [];
        Report(0, first.err, first.sent)
      else
        var rest := CopyAll(step, subjects[1..]);
        if rest.err.Some? then
          assert subjects[..rest.count + 2][1..] == subjects[1..][..rest.count + 1];
          Report(rest.count + 1, rest.err, first.sent + rest.sent)
        else
          assert subjects[..rest.count + 1] == subjects;
          assert subjects[1..][..rest.count] == subjects[1..];
          Report(rest.count + 1, rest.err, first.sent + rest.sent)
  }

  /** r is what running step over subjects in order, after the requests
      pre, gives when it stops at the first failure. */
  predicate StoppedAtFirstFailure(step: Subject -> Call<uint32>, subjects: seq<Subject>, pre: seq<Request>, r: Report) {
    && r.count <= |subjects|
    && (r.err.None? <==> r.count == |subjects|)
    && SucceededOn(step, subjects, r.count)
    && (r.err.Some? ==> r.err == step(subjects[r.count]).err)
    && r.sent == pre + Trace(step, subjects[..if r.err.None? then r.count else r.count + 1])
  }

  /** The loop's report, after the requests pre, is what
      StoppedAtFirstFailure describes. */
  lemma LoopAfterListing(step: Subject -> Call<uint32>, subjects: seq<Subject>, pre: seq<Request>)
    ensures var c := CopyAll(step, subjects);
            StoppedAtFirstFailure(step, subjects, pre, Report(c.count, c.err, pre + c.sent))
  {
  }

  /** The loop body of Copy: copy s under the name strings.Replace gives it. */
  function CopyStep(client: Transport, codec: Codec, fromUrl: string, toUrl: string, fromPrefix: string, toPrefix: string): Subject -> Call<uint32> {
    s => CopySubject(client, codec, fromUrl, toUrl, s, ReplaceFirst(s, fromPrefix, toPrefix))
  }

  /** `Copy`: a failed listing copies nothing; otherwise the listed
      subjects are copied in the server's order until the first failure. */
  function Copy(client: Transport, codec: Codec, fromUrl: string, toUrl: string, fromPrefix: string, toPrefix: string): (r: Report)
    ensures var listed := ListSubjects(client, codec, fromUrl);
            listed.err.Some? ==> r == Report(0, listed.err, listed.sent)
    ensures var listed := ListSubjects(client, codec, fromUrl);
            listed.err.None? ==>
              StoppedAtFirstFailure(CopyStep(client, codec, fromUrl, toUrl, fromPrefix, toPrefix), listed.value, listed.sent, r)
  {
    var listed := ListSubjects(client, codec, fromUrl);
    if listed.err.Some? then Report(0, listed.err, listed.sent)
    else
      var step := CopyStep(client, codec, fromUrl, toUrl, fromPrefix, toPrefix);
      var copied := CopyAll(step, listed.value);
      LoopAfterListing(step, listed.value, listed.sent);
      Report(copied.count, copied.err, listed.sent + copied.sent)
  }

  /** When the second subject fails after the first was copied, the loop
      reports one subject copied and that failure, and has run the body on
      the first two subjects only. */
  lemma SecondFailureStopsCopy(step: Subject -> Call<uint32>, subjects: seq<Subject>)
    requires |subjects| >= 2
    requires step(subjects[0]).err.None? && step(subjects[1]).err.Some?
    ensures var r := CopyAll(step, subjects);
            r.count == 1 && r.err == step(subjects[1]).err && r.sent == step(subjects[0]).sent + step(subjects[1]).sent
  {
    assert subjects[..2] == [subjects[0], subjects[1]];
    assert subjects[..2][1..] == [subjects[1]];
    assert [subjects[1]][1..] == [];
  }
}
