/** The notes worker (agent/agent.py): bullet normalisation, the cleaning of a markdown
    fence around the model's reply, one generation attempt, and `main`'s guarded
    pipeline with its two-attempt retry loop. The model call is an oracle: the reply
    text, or the error the call raised, is a parameter. */
module Agent {
  import opened Wrappers
  import opened Strings
  import opened Json
  import opened Schemas

  // ---------------------------------------------------------------- bullets

  const Backtick: char := '`'
  const Dash: string := ['-', ' ']
  const DotBullet: string := ['\U{2022}', ' ']

  /** `s.startswith("- ") or s.startswith("• ")`. */
  predicate HasBulletPrefix(s: string) {
    Dash <= s || DotBullet <= s
  }

  /** The shape of every normalised item: stripped, non-empty and prefixed. */
  predicate IsBullet(s: string) {
    s != "" && IsTrimmed(s) && HasBulletPrefix(s)
  }

  /** A stripped item, with "- " put in front when it has neither prefix. */
  function Bulleted(s: string): (r: string)
    ensures HasBulletPrefix(r)
    ensures |s| <= |r| && r[|r| - |s|..] == s
    ensures HasBulletPrefix(s) ==> r == s
    ensures !HasBulletPrefix(s) ==> r == Dash + s
  {
    if HasBulletPrefix(s) then s else Dash + s
  }

  /** A stripped, non-empty item becomes a bullet. */
  lemma BulletedIsBullet(s: string)
    requires s != "" && IsTrimmed(s)
    ensures IsBullet(Bulleted(s))
  {
    var r := Bulleted(s);
    assert r[|r| - 1] == s[|s| - 1];
  }

  /** Each item replaced by what `f` makes of it, in order. */
  function FlatMap(items: seq<string>, f: string -> seq<string>): seq<string>
    decreases |items|
  {
    if items == [] then [] else f(items[0]) + FlatMap(items[1..], f)
  }

  lemma {:induction false} FlatMapAppend(a: seq<string>, b: seq<string>, f: string -> seq<string>)
    ensures FlatMap(a + b, f) == FlatMap(a, f) + FlatMap(b, f)
    decreases |a|
  {
    if a == [] {
      assert a + b == b;
    } else {
      assert (a + b)[0] == a[0];
      assert (a + b)[1..] == a[1..] + b;
      FlatMapAppend(a[1..], b, f);
    }
  }

  lemma FlatMapSnoc(items: seq<string>, i: nat, f: string -> seq<string>)
    requires i < |items|
    ensures FlatMap(items[..i + 1], f) == FlatMap(items[..i], f) + f(items[i])
  {
    FlatMapAppend(items[..i], [items[i]], f);
    assert items[..i + 1] == items[..i] + [items[i]];
    assert FlatMap([items[i]], f) == f(items[i]) + FlatMap([], f) by {
      assert [items[i]][1..] == [];
    }
  }

  lemma {:induction false} FlatMapMembership(items: seq<string>, f: string -> seq<string>, x: string)
    ensures x in FlatMap(items, f) <==> exists k :: 0 <= k < |items| && x in f(items[k])
    decreases |items|
  {
    if items != [] {
      var rest := items[1..];
      FlatMapMembership(rest, f, x);
      if exists k :: 0 <= k < |items| && x in f(items[k]) {
        var k :| 0 <= k < |items| && x in f(items[k]);
        if k > 0 {
          assert rest[k - 1] == items[k];
        }
      }
      if exists k :: 0 <= k < |rest| && x in f(rest[k]) {
        var k :| 0 <= k < |rest| && x in f(rest[k]);
        assert items[k + 1] == rest[k];
      }
    }
  }

  lemma {:induction false} FlatMapIdentity(items: seq<string>, f: string -> seq<string>)
    requires forall k :: 0 <= k < |items| ==> f(items[k]) == [items[k]]
    ensures FlatMap(items, f) == items
    decreases |items|
  {
    if items != [] {
      var rest := items[1..];
      forall k | 0 <= k < |rest|
        ensures f(rest[k]) == [rest[k]]
      {
        assert rest[k] == items[k + 1];
      }
      FlatMapIdentity(rest, f);
      assert items == [items[0]] + rest;
    }
  }

  lemma {:induction false} FlatMapLength(items: seq<string>, f: string -> seq<string>)
    requires forall k :: 0 <= k < |items| ==> |f(items[k])| <= 1
    ensures |FlatMap(items, f)| <= |items|
    ensures |FlatMap(items, f)| == |items| <==> forall k :: 0 <= k < |items| ==> |f(items[k])| == 1
    decreases |items|
  {
    if items != [] {
      var rest := items[1..];
      forall k | 0 <= k < |rest|
        ensures |f(rest[k])| <= 1
      {
        assert rest[k] == items[k + 1];
      }
      FlatMapLength(rest, f);
      if forall k :: 0 <= k < |rest| ==> |f(rest[k])| == 1 {
        forall k | 0 <= k < |items| && |f(items[0])| == 1
          ensures |f(items[k])| == 1
        {
          if k > 0 {
            assert items[k] == rest[k - 1];
          }
        }
      } else {
        var k :| 0 <= k < |rest| && |f(rest[k])| != 1;
        assert items[k + 1] == rest[k];
      }
    }
  }

  /** What one item contributes: nothing when it is blank after stripping, else its
      stripped and bulleted form. */
  function NormalizedItem(x: string): (r: seq<string>)
    ensures |r| <= 1
    ensures |r| == 1 <==> Trim(x) != ""
  {
    var s := Trim(x);
    if s == "" then [] else [Bulleted(s)]
  }

  lemma NormalizedItemFacts(x: string)
    ensures |NormalizedItem(x)| <= 1
    ensures |NormalizedItem(x)| == 1 <==> Trim(x) != ""
    ensures forall y :: y in NormalizedItem(x) ==> y == Bulleted(Trim(x)) && Trim(x) != ""
    ensures forall y :: y in NormalizedItem(x) ==> IsBullet(y)
    ensures IsBullet(x) ==> NormalizedItem(x) == [x]
  {
    NormalizedItemForm(x);
    NormalizedItemIsBullet(x);
    NormalizedItemOfBullet(x);
  }

  /** The entry is the stripped item with its bullet. */
  lemma NormalizedItemForm(x: string)
    ensures forall y :: y in NormalizedItem(x) ==> y == Bulleted(Trim(x)) && Trim(x) != ""
  {
  }

  /** The entry is a bullet. */
  lemma NormalizedItemIsBullet(x: string)
    ensures forall y :: y in NormalizedItem(x) ==> IsBullet(y)
  {
    if Trim(x) != "" {
      BulletedIsBullet(Trim(x));
    }
  }

  /** A bullet is its own entry. */
  lemma NormalizedItemOfBullet(x: string)
    ensures IsBullet(x) ==> NormalizedItem(x) == [x]
  {
    if IsBullet(x) {
      TrimOfTrimmed(x);
    }
  }

  /** `_normalize_bullets`: each item stripped, the empty ones dropped, the others given
      a bullet prefix when they lack one. */
  function Normalized(items: seq<string>): (r: seq<string>)
    ensures |r| <= |items|
  {
    FlatMapLength(items, NormalizedItem);
    FlatMap(items, NormalizedItem)
  }

  /** Blank items are dropped, so there are never more items than were given, and
      exactly as many when none is blank. */
  lemma NormalizedLength(items: seq<string>)
    ensures |Normalized(items)| <= |items|
    ensures |Normalized(items)| == |items| <==> forall k :: 0 <= k < |items| ==> Trim(items[k]) != ""
  {
    forall k | 0 <= k < |items|
      ensures |NormalizedItem(items[k])| <= 1
      ensures |NormalizedItem(items[k])| == 1 <==> Trim(items[k]) != ""
    {
      NormalizedItemFacts(items[k]);
    }
    FlatMapLength(items, NormalizedItem);
  }

  /** The output holds exactly the bulleted forms of the items that are not blank. */
  lemma NormalizedMembership(items: seq<string>, x: string)
    ensures x in Normalized(items) <==>
            exists k :: 0 <= k < |items| && Trim(items[k]) != "" && x == Bulleted(Trim(items[k]))
  {
    FlatMapMembership(items, NormalizedItem, x);
    if x in Normalized(items) {
      var k :| 0 <= k < |items| && x in NormalizedItem(items[k]);
      NormalizedItemFacts(items[k]);
    }
    if exists k :: 0 <= k < |items| && Trim(items[k]) != "" && x == Bulleted(Trim(items[k])) {
      var k :| 0 <= k < |items| && Trim(items[k]) != "" && x == Bulleted(Trim(items[k]));
      assert x in NormalizedItem(items[k]);
    }
  }

  /** Every output item is stripped, non-empty and prefixed. */
  lemma NormalizedAreBullets(items: seq<string>)
    ensures forall k :: 0 <= k < |Normalized(items)| ==> IsBullet(Normalized(items)[k])
  {
    var out := Normalized(items);
    forall k | 0 <= k < |out|
      ensures IsBullet(out[k])
    {
      FlatMapMembership(items, NormalizedItem, out[k]);
      var j :| 0 <= j < |items| && out[k] in NormalizedItem(items[j]);
      NormalizedItemFacts(items[j]);
    }
  }

  /** Normalising a concatenation normalises each part: items keep their relative order. */
  lemma NormalizedAppend(a: seq<string>, b: seq<string>)
    ensures Normalized(a + b) == Normalized(a) + Normalized(b)
  {
    FlatMapAppend(a, b, NormalizedItem);
  }

  /** Items that are already bullets pass through unchanged. */
  lemma NormalizedOfBullets(items: seq<string>)
    requires forall k :: 0 <= k < |items| ==> IsBullet(items[k])
    ensures Normalized(items) == items
  {
    forall k | 0 <= k < |items|
      ensures NormalizedItem(items[k]) == [items[k]]
    {
      NormalizedItemFacts(items[k]);
    }
    FlatMapIdentity(items, NormalizedItem);
  }

  /** Normalising twice is normalising once. */
  lemma NormalizedIdempotent(items: seq<string>)
    ensures Normalized(Normalized(items)) == Normalized(items)
  {
    NormalizedAreBullets(items);
    NormalizedOfBullets(Normalized(items));
  }

  /** One more item: its contribution is appended. */
  lemma NormalizedSnoc(items: seq<string>, i: nat)
    requires i < |items|
    ensures Normalized(items[..i + 1]) == Normalized(items[..i]) + NormalizedItem(items[i])
  {
    FlatMapSnoc(items, i, NormalizedItem);
  }

  /** The loop of `_normalize_bullets`. */
  method NormalizeBullets(items: seq<string>) returns (norm: seq<string>)
    ensures norm == Normalized(items)
  {
    norm := [];
    var i := 0;
    while i < |items|
      invariant 0 <= i <= |items|
      invariant norm == Normalized(items[..i])
    {
      NormalizedSnoc(items, i);
      var s := Trim(items[i]);
      if s != "" {
        if !HasBulletPrefix(s) {
          s := Dash + s;
        }
        norm := norm + [s];
      }
      i := i + 1;
    }
    assert items[..i] == items;
  }

  // ---------------------------------------------------------------- fences

  const Fence: string := [Backtick, Backtick, Backtick]
  const JsonTag: string := ['j', 's', 'o', 'n']
  const JsonFence: string := Fence + JsonTag

  /** The reply after the fence cleaning of `_run_once`: a reply that opens with a
      tagged fence loses every tagged and every bare fence and is stripped; one that
      opens with a bare fence loses every bare fence and is stripped; any other reply is
      left exactly as it is. */
  function FenceCleaned(content: string): (r: string)
    ensures |r| <= |content|
  {
    if JsonFence <= content then Trim(RemoveAll(RemoveAll(content, JsonFence), Fence))
    else if Fence <= content then Trim(RemoveAll(content, Fence))
    else content
  }

  /** A text that does not open with a fence does not open with one after the removal
      either: its first character is kept, and the two after it cannot complete a fence. */
  lemma KeptHeadNotFence(s: string)
    requires |s| >= |Fence| && s[..|Fence|] != Fence
    ensures var r := RemoveAll(s, Fence); |r| < |Fence| || r[..|Fence|] != Fence
  {
    var r, s1, s2 := RemoveAll(s, Fence), s[1..], s[2..];
    assert !(Fence <= s);
    RemoveAllKeepsHead(s, Fence);
    if s[0] == Backtick && |r| >= |Fence| {
      assert !(Fence <= s1) by { assert s1[1] != Fence[1] || s1[0] != Fence[0]; }
      RemoveAllKeepsHead(s1, Fence);
      assert s1[1..] == s2;
      if s[1] != Backtick {
        assert r[1] == s[1];
      } else {
        assert s[2] != Backtick by { assert s[..|Fence|] == [s[0], s[1], s[2]]; }
        assert !(Fence <= s2) by { assert s2[0] != Fence[0]; }
        RemoveAllKeepsHead(s2, Fence);
        assert r[2] == s[2];
      }
    }
  }

  /** Removing every bare fence leaves no fence behind: a kept backtick is never followed
      by two more. */
  lemma {:induction false} FenceRemovalComplete(s: string)
    ensures !Contains(RemoveAll(s, Fence), Fence)
    decreases |s|
  {
    var r := RemoveAll(s, Fence);
    if |s| < |Fence| {
    } else if s[..|Fence|] == Fence {
      FenceRemovalComplete(s[|Fence|..]);
    } else {
      var t := RemoveAll(s[1..], Fence);
      FenceRemovalComplete(s[1..]);
      KeptHeadNotFence(s);
      assert r == [s[0]] + t;
      forall i | 0 <= i <= |r| - |Fence|
        ensures !OccursAt(r, Fence, i)
      {
        if i > 0 {
          assert !OccursAt(t, Fence, i - 1);
          assert r[1..] == t;
          assert r[i..i + |Fence|] == r[1..][i - 1..i - 1 + |Fence|];
        }
      }
    }
  }

  /** Stripping cannot create a fence. */
  lemma TrimKeepsNoFence(s: string)
    requires !Contains(s, Fence)
    ensures !Contains(Trim(s), Fence)
  {
    var lo := |s| - |TrimStart(s)|;
    var r := Trim(s);
    TrimIsSlice(s);
    if Contains(r, Fence) {
      ContainsOfSlice(s, lo, lo + |r|, Fence);
    }
  }

  /** A cleaned reply that opened with a fence holds no fence anywhere and is stripped. */
  lemma FenceCleanedHasNoFence(content: string)
    requires Fence <= content
    ensures !Contains(FenceCleaned(content), Fence)
    ensures IsTrimmed(FenceCleaned(content))
  {
    if JsonFence <= content {
      var untagged := RemoveAll(content, JsonFence);
      FenceRemovalComplete(untagged);
      TrimKeepsNoFence(RemoveAll(untagged, Fence));
    } else {
      FenceRemovalComplete(content);
      TrimKeepsNoFence(RemoveAll(content, Fence));
    }
  }

  /** A tagged fence holds a bare one, so a cleaned reply also holds no tagged fence. */
  lemma FenceCleanedHasNoJsonFence(content: string)
    requires Fence <= content
    ensures !Contains(FenceCleaned(content), JsonFence)
  {
    FenceCleanedHasNoFence(content);
    if Contains(FenceCleaned(content), JsonFence) {
      assert Fence <= JsonFence;
      ContainsPrefixOfPattern(FenceCleaned(content), JsonFence, Fence);
    }
  }

  /** A reply that does not open with a fence is not touched, not even stripped. */
  lemma UnfencedReplyUntouched(content: string)
    requires !(Fence <= content)
    ensures FenceCleaned(content) == content
  {
  }

  /** A pattern standing alone is removed entirely. */
  lemma RemoveAllOfPattern(p: string)
    requires |p| > 0
    ensures RemoveAll(p, p) == ""
  {
    RemoveAllLeading(p, "");
    assert p + "" == p;
  }

  /** A reply wrapped in a `json`-tagged fence is cleaned to its stripped payload. */
  lemma FenceCleanedJsonPayload(b: string)
    requires Backtick !in b
    ensures FenceCleaned(JsonFence + b + Fence) == Trim(b)
  {
    var content := JsonFence + b + Fence;
    assert JsonFence <= content;
    assert content == JsonFence + (b + Fence);
    RemoveAllLeading(JsonFence, b + Fence);
    RemoveAllKeepsText(b, Fence, JsonFence);
    RemoveAllKeepsText(b, Fence, Fence);
    RemoveAllOfPattern(Fence);
    assert b + "" == b;
  }

  /** A reply wrapped in a bare fence is cleaned to its stripped payload; a payload that
      opens with `json` makes the reply a tagged one, and loses that tag. */
  lemma FenceCleanedBarePayload(b: string)
    requires Backtick !in b
    ensures FenceCleaned(Fence + b + Fence) == if JsonTag <= b then Trim(b[|JsonTag|..]) else Trim(b)
  {
    var content := Fence + b + Fence;
    if JsonTag <= b {
      var rest := b[|JsonTag|..];
      assert b == JsonTag + rest;
      assert content == JsonFence + rest + Fence;
      assert forall c :: c in rest ==> c in b;
      FenceCleanedJsonPayload(rest);
    } else {
      NotJsonFenced(b);
      assert Fence <= content;
      assert content == Fence + (b + Fence);
      RemoveAllLeading(Fence, b + Fence);
      RemoveAllKeepsText(b, Fence, Fence);
      RemoveAllOfPattern(Fence);
      assert b + "" == b;
    }
  }

  /** A bare fence around a payload without backticks that does not open with `json` is
      no tagged fence. */
  lemma NotJsonFenced(b: string)
    requires Backtick !in b && !(JsonTag <= b)
    ensures !(JsonFence <= Fence + b + Fence)
  {
    var content := Fence + b + Fence;
    if |b| >= |JsonTag| {
      assert content[..|JsonFence|][|Fence|..] == b[..|JsonTag|];
      assert JsonFence[|Fence|..] == JsonTag;
    } else if |content| >= |JsonFence| {
      assert content[|Fence| + |b|] == Backtick;
      assert JsonFence[|Fence| + |b|] != Backtick;
    }
  }

  /** The reassignments of `content` in `_run_once`. */
  method CleanFences(content: string) returns (cleaned: string)
    ensures cleaned == FenceCleaned(content)
  {
    cleaned := content;
    if JsonFence <= cleaned {
      cleaned := RemoveAll(cleaned, JsonFence);
      cleaned := RemoveAll(cleaned, Fence);
      cleaned := Trim(cleaned);
    } else if Fence <= cleaned {
      cleaned := RemoveAll(cleaned, Fence);
      cleaned := Trim(cleaned);
    }
  }

  // ---------------------------------------------------------------- one attempt

  /** Every item of the three lists is a bullet. */
  predicate BulletNotes(n: NotesOutput) {
    && (forall k :: 0 <= k < |n.keyConcepts| ==> IsBullet(n.keyConcepts[k]))
    && (forall k :: 0 <= k < |n.importantPoints| ==> IsBullet(n.importantPoints[k]))
    && (forall k :: 0 <= k < |n.examTips| ==> IsBullet(n.examTips[k]))
  }

  /** The notes with each of the three lists normalised. */
  function NormalizedNotes(n: NotesOutput): NotesOutput {
    n.(keyConcepts := Normalized(n.keyConcepts),
       importantPoints := Normalized(n.importantPoints),
       examTips := Normalized(n.examTips))
  }

  /** `_run_once` given the model's reply (or the error the call raised) and Pydantic's
      JSON reader: the cleaned reply must parse and conform to the output schema. The
      title is kept and the lists are normalised. */
  function AttemptResult(reply: Result<string, string>, parse: Parser): (r: Result<NotesOutput, string>)
    ensures r.Success? <==>
            && reply.Success?
            && parse(FenceCleaned(reply.value)).Success?
            && ConformsToOutput(parse(FenceCleaned(reply.value)).value)
    ensures r.Success? ==>
            var doc := parse(FenceCleaned(reply.value)).value;
            && r.value.title == doc.members["title"].s
            && r.value.keyConcepts == Normalized(StringListMember(doc, "key_concepts").value)
            && r.value.importantPoints == Normalized(StringListMember(doc, "important_points").value)
            && r.value.examTips == Normalized(StringListMember(doc, "exam_tips").value)
    ensures r.Success? ==> BulletNotes(r.value)
    ensures reply.Failure? ==> r == Failure(reply.error)
  {
    match reply
    case Failure(e) => Failure(e)
    case Success(content) =>
      match parse(FenceCleaned(content))
      case Failure(e) => Failure(e)
      case Success(doc) =>
        match ValidateOutput(doc)
        case Failure(e) => Failure(e)
        case Success(notes) =>
          NormalizedAreBullets(notes.keyConcepts);
          NormalizedAreBullets(notes.importantPoints);
          NormalizedAreBullets(notes.examTips);
          Success(NormalizedNotes(notes))
  }

  /** The body of `_run_once` past the model call: clean, read and validate, then
      normalise each list in place. */
  method RunOnce(reply: Result<string, string>, parse: Parser) returns (r: Result<NotesOutput, string>)
    ensures r == AttemptResult(reply, parse)
  {
    if reply.Failure? {
      return Failure(reply.error);
    }
    var content := CleanFences(reply.value);
    var doc := parse(content);
    if doc.Failure? {
      return Failure(doc.error);
    }
    var data := ValidateOutput(doc.value);
    if data.Failure? {
      return Failure(data.error);
    }
    var notes := data.value;
    var keyConcepts := NormalizeBullets(notes.keyConcepts);
    var importantPoints := NormalizeBullets(notes.importantPoints);
    var examTips := NormalizeBullets(notes.examTips);
    notes := notes.(keyConcepts := keyConcepts, importantPoints := importantPoints, examTips := examTips);
    r := Success(notes);
  }

  /** When every attempt is `_run_once` on the model's reply to it, every successful
      attempt yields bullet-only notes. */
  lemma AttemptsAreBullets(inp: InputSchema, runOnce: (InputSchema, nat) -> Result<NotesOutput, string>,
                           replies: nat -> Result<string, string>, parse: Parser)
    requires forall k :: runOnce(inp, k) == AttemptResult(replies(k), parse)
    ensures forall k :: runOnce(inp, k).Success? ==> BulletNotes(runOnce(inp, k).value)
  {
    forall k | runOnce(inp, k).Success?
      ensures BulletNotes(runOnce(inp, k).value)
    {
      assert runOnce(inp, k) == AttemptResult(replies(k), parse);
    }
  }

  // ---------------------------------------------------------------- main

  /** The single JSON line `main` prints: an error object, or the four keys of the notes. */
  datatype Printed = ErrorLine(error: string) | NotesLine(notes: NotesOutput)

  const InvalidBodyPrefix := "Invalid request body: "
  const ValidationPrefix := "Validation error: "
  const ContentTooShortMessage := "Content too short. Provide at least 20 characters."
  const GenerationFailedPrefix := "Failed to generate valid notes: "

  /** `range(2)`: the initial attempt and one retry. */
  const MaxAttempts: nat := 2

  /** The three guards before any attempt, in their order: the request text must parse,
      conform to the input schema, and keep at least 20 characters once stripped. */
  function Admit(raw: string, parse: Parser): (r: Result<InputSchema, string>)
    ensures r.Success? ==> ValidInput(r.value) && |Trim(r.value.content)| >= ContentMinLength
    ensures r.Success? ==> parse(raw).Success? && ValidateInput(parse(raw).value).Success?
                           && r.value == ValidateInput(parse(raw).value).value
    ensures r.Success? <==>
            && parse(raw).Success?
            && ConformsToInput(parse(raw).value)
            && |Trim(ValidateInput(parse(raw).value).value.content)| >= ContentMinLength
    ensures parse(raw).Failure? ==> r == Failure(InvalidBodyPrefix + parse(raw).error)
    ensures parse(raw).Success? && !ConformsToInput(parse(raw).value) ==>
            r == Failure(ValidationPrefix + ValidateInput(parse(raw).value).error)
    ensures parse(raw).Success? && ConformsToInput(parse(raw).value)
            && |Trim(ValidateInput(parse(raw).value).value.content)| < ContentMinLength ==>
            r == Failure(ContentTooShortMessage)
  {
    match parse(raw)
    case Failure(e) => Failure(InvalidBodyPrefix + e)
    case Success(doc) =>
      match ValidateInput(doc)
      case Failure(e) => Failure(ValidationPrefix + e)
      case Success(inp) =>
        if |Trim(inp.content)| < ContentMinLength then Failure(ContentTooShortMessage)
        else Success(inp)
  }

  /** The retry loop of `main` for an admitted request. `runOnce(inp, attempt)` is the
      outcome of `_run_once` on attempt number `attempt`: the notes, or the text of the
      exception it raised. At most two attempts are made; the first success is printed
      with exit code 0, and when both fail the error of the last one is reported with
      exit code 1. */
  method GenerateNotes(inp: InputSchema, runOnce: (InputSchema, nat) -> Result<NotesOutput, string>)
    returns (code: int, printed: Printed, attempts: nat)
    ensures code == 0 || code == 1
    ensures code == 0 <==> printed.NotesLine?
    ensures 1 <= attempts <= MaxAttempts
    ensures runOnce(inp, 0).Success? ==> attempts == 1 && printed == NotesLine(runOnce(inp, 0).value)
    ensures runOnce(inp, 0).Failure? && runOnce(inp, 1).Success? ==>
            attempts == 2 && printed == NotesLine(runOnce(inp, 1).value)
    ensures runOnce(inp, 0).Failure? && runOnce(inp, 1).Failure? ==>
            attempts == 2 && printed == ErrorLine(GenerationFailedPrefix + runOnce(inp, 1).error)
    ensures (forall k :: runOnce(inp, k).Success? ==> BulletNotes(runOnce(inp, k).value)) ==>
            printed.NotesLine? ==> BulletNotes(printed.notes)
  {
    var lastErr: Option<string> := None;
    var attempt := 0;
    while attempt < MaxAttempts
      invariant 0 <= attempt <= MaxAttempts
      invariant forall k :: 0 <= k < attempt ==> runOnce(inp, k).Failure?
      invariant attempt == 0 <==> lastErr.None?
      invariant attempt > 0 ==> lastErr == Some(runOnce(inp, attempt - 1).error)
    {
      var out := runOnce(inp, attempt);
      if out.Success? {
        return 0, NotesLine(out.value), attempt + 1;
      }
      lastErr := Some(out.error);
      attempt := attempt + 1;
    }
    var shown := match lastErr case Some(e) => e case None => "None";
    return 1, ErrorLine(GenerationFailedPrefix + shown), attempt;
  }

  /** `main`: the three guards, then the retry loop. Exits 1 without any attempt when a
      guard fails, and otherwise as `GenerateNotes` says. */
  method AgentMain(raw: string, parse: Parser, runOnce: (InputSchema, nat) -> Result<NotesOutput, string>)
    returns (code: int, printed: Printed, attempts: nat)
    ensures code == 0 || code == 1
    ensures code == 0 <==> printed.NotesLine?
    ensures attempts <= MaxAttempts
    ensures Admit(raw, parse).Failure? ==>
            code == 1 && attempts == 0 && printed == ErrorLine(Admit(raw, parse).error)
    ensures Admit(raw, parse).Success? ==>
            var inp := Admit(raw, parse).value;
            && (runOnce(inp, 0).Success? ==> attempts == 1 && printed == NotesLine(runOnce(inp, 0).value))
            && (runOnce(inp, 0).Failure? && runOnce(inp, 1).Success? ==>
                  attempts == 2 && printed == NotesLine(runOnce(inp, 1).value))
            && (runOnce(inp, 0).Failure? && runOnce(inp, 1).Failure? ==>
                  attempts == 2 && printed == ErrorLine(GenerationFailedPrefix + runOnce(inp, 1).error))
    ensures Admit(raw, parse).Success? &&
            (forall k :: runOnce(Admit(raw, parse).value, k).Success? ==> BulletNotes(runOnce(Admit(raw, parse).value, k).value)) ==>
            printed.NotesLine? ==> BulletNotes(printed.notes)
  {
    var admitted := Admit(raw, parse);
    if admitted.Failure? {
      return 1, ErrorLine(admitted.error), 0;
    }
    code, printed, attempts := GenerateNotes(admitted.value, runOnce);
  }
}
