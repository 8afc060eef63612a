/**
 * How the recogniser reads the chat model's replies: the two captures and the acceptance
 * rule of `Lumus.ground`, the mention list of `Lumus.extract`, and the `label: definition`
 * lines of its define mode.
 */
module ReplyParsing {
  import opened Wrappers
  import opened PyStrings
  import opened PyValues
  import opened Steps

  // ---------------------------------------------------------------------------------------
  // `re.findall("(?<=answer: )[^\n]+", reply)[0]` and `re.findall("(?<=confidence: )[A-Z]+", reply)[0]`
  // ---------------------------------------------------------------------------------------

  /** The character classes of the two captures. */
  datatype CharClass = NotNewline | Upper

  predicate InClass(cls: CharClass, c: char) {
    match cls
    case NotNewline => c != '\n'
    case Upper => 'A' <= c <= 'Z'
  }

  /** `(?<=tag)[cls]+` can match at position `p`: `tag` ends there and one class character follows. */
  predicate StartsCapture(s: string, tag: string, cls: CharClass, p: nat) {
    |tag| <= p < |s| && s[p - |tag|..p] == tag && InClass(cls, s[p])
  }

  /** The length of the run of class characters starting at `p` (the greedy `+`). */
  function RunLength(s: string, cls: CharClass, p: nat): (n: nat)
    requires p <= |s|
    ensures p + n <= |s|
    ensures forall j :: p <= j < p + n ==> InClass(cls, s[j])
    ensures p + n == |s| || !InClass(cls, s[p + n])
    decreases |s| - p
  {
    if p == |s| || !InClass(cls, s[p]) then 0 else 1 + RunLength(s, cls, p + 1)
  }

  /** The leftmost position at or after `from` where a match starts, or -1 when there is none. */
  function FirstStart(s: string, tag: string, cls: CharClass, from: nat): (p: int)
    requires from <= |s|
    ensures p == -1 || from <= p < |s|
    ensures p == -1 ==> forall q :: from <= q < |s| ==> !StartsCapture(s, tag, cls, q)
    ensures p >= 0 ==> StartsCapture(s, tag, cls, p) && forall q :: from <= q < p ==> !StartsCapture(s, tag, cls, q)
    decreases |s| - from
  {
    if from == |s| then -1
    else if StartsCapture(s, tag, cls, from) then from
    else FirstStart(s, tag, cls, from + 1)
  }

  /** The first item of `re.findall(f"(?<={tag})[{cls}]+", s)`, if the list is not empty. */
  function Capture(s: string, tag: string, cls: CharClass): (r: Option<string>)
    ensures r.None? <==> forall q :: 0 <= q < |s| ==> !StartsCapture(s, tag, cls, q)
    ensures r.Some? ==> r.value != [] && forall j :: 0 <= j < |r.value| ==> InClass(cls, r.value[j])
    ensures r.Some? ==> exists p: nat ::
              && StartsCapture(s, tag, cls, p) && (forall q :: 0 <= q < p ==> !StartsCapture(s, tag, cls, q))
              && p + |r.value| <= |s| && r.value == s[p..p + |r.value|]
              && (p + |r.value| == |s| || !InClass(cls, s[p + |r.value|]))
  {
    var p := FirstStart(s, tag, cls, 0);
    if p < 0 then None
    else
      var n := RunLength(s, cls, p);
      Some(s[p..p + n])
  }

  /** A run of exactly `n` class characters at `p`, then a character outside the class or the end. */
  lemma RunExact(s: string, cls: CharClass, p: nat, n: nat)
    requires p + n <= |s|
    requires forall j :: p <= j < p + n ==> InClass(cls, s[j])
    requires p + n == |s| || !InClass(cls, s[p + n])
    ensures RunLength(s, cls, p) == n
  {
    var m := RunLength(s, cls, p);
    assert m <= n by {
      if p + n < |s| {
        assert !InClass(cls, s[p + n]);
      }
    }
    assert m >= n by {
      if p + m < |s| {
        assert !InClass(cls, s[p + m]);
      }
    }
  }

  /** A match at `p` with none before it is the leftmost one. */
  lemma FirstExact(s: string, tag: string, cls: CharClass, p: nat)
    requires StartsCapture(s, tag, cls, p)
    requires forall q :: 0 <= q < p ==> !StartsCapture(s, tag, cls, q)
    ensures FirstStart(s, tag, cls, 0) == p
  {
  }

  // ---------------------------------------------------------------------------------------
  // The acceptance rule of `ground`
  // ---------------------------------------------------------------------------------------

  /**
   * The `confidence` argument of `ground`. `in` on a string is a substring test and on a
   * list or tuple a membership test.
   */
  datatype Allowed = AllowedText(text: string) | AllowedItems(items: seq<string>)

  /** `conf in confidence`. */
  predicate Admits(allowed: Allowed, conf: string) {
    match allowed
    case AllowedText(t) => Contains(t, conf)
    case AllowedItems(items) => conf in items
  }

  /** `ground`'s default, `("HIGH")`: a parenthesised string, not a one-element tuple. */
  const DefaultConfidence: Allowed := AllowedText("HIGH")

  /** The one-element tuple `("HIGH",)` the default evidently stands for. */
  const IntendedConfidence: Allowed := AllowedItems(["HIGH"])

  /** An accepted grounding: `uri[0]` and `conf[0]`. */
  datatype Grounding = Grounding(id: string, confidence: string)

  /**
   * `uri and conf and (conf[0] in confidence) and ("none" not in uri[0].lower())`: the
   * grounding a reply yields, or None when the mention is to be left as it was.
   */
  function Verdict(reply: string, allowed: Allowed): (r: Option<Grounding>)
    ensures r.Some? ==> r.value.id != [] && '\n' !in r.value.id
    ensures r.Some? ==> r.value.confidence != [] && forall c :: c in r.value.confidence ==> 'A' <= c <= 'Z'
    ensures r.Some? ==> Admits(allowed, r.value.confidence) && !Contains(Lower(r.value.id), "none")
    ensures var uri := Capture(reply, "answer: ", NotNewline);
            var conf := Capture(reply, "confidence: ", Upper);
            && (r.Some? <==> uri.Some? && conf.Some? && Admits(allowed, conf.value) && !Contains(Lower(uri.value), "none"))
            && (r.Some? ==> r.value == Grounding(uri.value, conf.value))
  {
    var uri := Capture(reply, "answer: ", NotNewline);
    var conf := Capture(reply, "confidence: ", Upper);
    if uri.Some? && conf.Some? && Admits(allowed, conf.value) && !Contains(Lower(uri.value), "none")
    then Some(Grounding(uri.value, conf.value))
    else None
  }

  /** After a leading `answer: `, the answer capture is the rest of the first line. */
  lemma AnswerCapture(id: string, tail: string)
    requires id != [] && '\n' !in id
    ensures Capture("answer: " + id + "\n" + tail, "answer: ", NotNewline) == Some(id)
  {
    var s := "answer: " + id + "\n" + tail;
    assert s[0..8] == "answer: ";
    assert s[8] == id[0];
    FirstExact(s, "answer: ", NotNewline, 8);
    assert forall j :: 8 <= j < 8 + |id| ==> s[j] == id[j - 8];
    assert s[8 + |id|] == '\n';
    RunExact(s, NotNewline, 8, |id|);
    assert s[8..8 + |id|] == id;
  }

  /**
   * A tag whose last character occurs nowhere else in it, preceded by text that does not
   * contain the tag: the first capture after the tag is the run that follows it. No earlier
   * match can end inside the tag, since that would need its last character earlier in it.
   */
  lemma CaptureAfter(pre: string, tag: string, cls: CharClass, level: string, rest: string)
    requires tag != [] && forall k :: 0 <= k < |tag| - 1 ==> tag[k] != tag[|tag| - 1]
    requires !Contains(pre, tag)
    requires level != [] && forall c :: c in level ==> InClass(cls, c)
    requires rest == [] || !InClass(cls, rest[0])
    ensures Capture(pre + tag + level + rest, tag, cls) == Some(level)
  {
    var s := pre + tag + level + rest;
    var c := |pre| + |tag|;
    assert s[c - |tag|..c] == tag;
    assert s[c] == level[0] && level[0] in level;
    NoEarlierTag(pre, tag, cls, level + rest);
    assert s == pre + tag + (level + rest);
    FirstExact(s, tag, cls, c);
    forall j | c <= j < c + |level|
      ensures InClass(cls, s[j])
    {
      assert s[j] == level[j - c] && level[j - c] in level;
    }
    if rest != [] {
      assert s[c + |level|] == rest[0];
    }
    RunExact(s, cls, c, |level|);
    assert s[c..c + |level|] == level;
  }

  /** Under the same conditions, no match starts before the one right after the tag. */
  lemma NoEarlierTag(pre: string, tag: string, cls: CharClass, after: string)
    requires tag != [] && forall k :: 0 <= k < |tag| - 1 ==> tag[k] != tag[|tag| - 1]
    requires !Contains(pre, tag)
    ensures forall q :: 0 <= q < |pre| + |tag| ==> !StartsCapture(pre + tag + after, tag, cls, q)
  {
    var s := pre + tag + after;
    forall q | 0 <= q < |pre| + |tag|
      ensures !StartsCapture(s, tag, cls, q)
    {
      if |tag| <= q <= |pre| {
        NotOccurs(pre, tag, q - |tag|);
        assert s[q - |tag|..q] == pre[q - |tag|..q];
      } else if |pre| < q && |tag| <= q {
        assert s[q - 1] == tag[q - 1 - |pre|];
        assert s[q - |tag|..q][|tag| - 1] == s[q - 1];
      }
    }
  }

  /** The confidence tag ends in its only space and starts with a `c`. */
  lemma ConfidenceTag()
    ensures var tag := "confidence: ";
            |tag| == 12 && tag[0] == 'c' && tag[11] == ' ' && forall k :: 0 <= k < 11 ==> tag[k] != ' '
  {
  }

  /** After text that does not contain `confidence: `, the confidence capture is the run of capitals after it. */
  lemma ConfidenceCapture(pre: string, level: string, rest: string)
    requires !Contains(pre, "confidence: ")
    requires level != [] && forall c :: c in level ==> 'A' <= c <= 'Z'
    requires rest == [] || !('A' <= rest[0] <= 'Z')
    ensures Capture(pre + "confidence: " + level + rest, "confidence: ", Upper) == Some(level)
  {
    ConfidenceTag();
    CaptureAfter(pre, "confidence: ", Upper, level, rest);
  }

  /** The reply the grounding prompt asks for: `answer: <id>`, a line break, `confidence: <level>`, then anything. */
  function GroundingReply(id: string, level: string, rest: string): string {
    "answer: " + id + "\nconfidence: " + level + rest
  }

  /** The requested reply is the answer line followed by the confidence text. */
  lemma GroundingReplyShape(id: string, level: string, rest: string)
    ensures GroundingReply(id, level, rest) == ("answer: " + id + "\n") + ("confidence: " + level + rest)
    ensures GroundingReply(id, level, rest) == ("answer: " + id + "\n") + "confidence: " + level + rest
  {
    var a := "answer: " + id;
    assert "answer: " + id + "\nconfidence: " == a + "\n" + "confidence: ";
  }

  /** Both captures of a reply in the requested format. */
  lemma GroundingReplyCaptures(id: string, level: string, rest: string)
    requires id != [] && '\n' !in id && !Contains(id, "confidence: ")
    requires level != [] && forall c :: c in level ==> 'A' <= c <= 'Z'
    requires rest == [] || !('A' <= rest[0] <= 'Z')
    ensures Capture(GroundingReply(id, level, rest), "answer: ", NotNewline) == Some(id)
    ensures Capture(GroundingReply(id, level, rest), "confidence: ", Upper) == Some(level)
  {
    GroundingReplyShape(id, level, rest);
    AnswerCapture(id, "confidence: " + level + rest);
    AnswerLineLacksTag(id);
    ConfidenceCapture("answer: " + id + "\n", level, rest);
  }

  /**
   * A reply in the format the grounding prompt asks for is accepted exactly when the level
   * is admitted and the id does not mention "none"; the grounding is then that id and level.
   */
  lemma WellFormedReply(id: string, level: string, rest: string, allowed: Allowed)
    requires id != [] && '\n' !in id && !Contains(id, "confidence: ")
    requires level != [] && forall c :: c in level ==> 'A' <= c <= 'Z'
    requires rest == [] || !('A' <= rest[0] <= 'Z')
    ensures Verdict(GroundingReply(id, level, rest), allowed) ==
            if Admits(allowed, level) && !Contains(Lower(id), "none") then Some(Grounding(id, level)) else None
  {
    GroundingReplyCaptures(id, level, rest);
  }

  /**
   * `head + id + [e]` holds `tag` only if `id` does, when `tag` cannot start in `head` (its
   * first character is not there) and cannot end at `e` (its last character is not `e`).
   */
  lemma FramedLacksTag(head: string, id: string, e: char, tag: string)
    requires tag != [] && tag[0] !in head && tag[|tag| - 1] != e
    requires !Contains(id, tag)
    ensures !Contains(head + id + [e], tag)
  {
    var pre := head + id + [e];
    var n := |tag|;
    forall i: nat ensures !OccursAt(pre, tag, i) {
      if i + n <= |pre| {
        if i < |head| {
          assert pre[i] == head[i];
          assert pre[i..i + n][0] == pre[i];
        } else if i + n == |pre| {
          assert pre[i..i + n][n - 1] == pre[|pre| - 1];
        } else {
          NotOccurs(id, tag, i - |head|);
          assert pre[i..i + n] == id[i - |head|..i - |head| + n];
        }
      }
    }
    NotContains(pre, tag);
  }

  /** The answer line holds `confidence: ` only if the id does. */
  lemma AnswerLineLacksTag(id: string)
    requires !Contains(id, "confidence: ")
    ensures !Contains("answer: " + id + "\n", "confidence: ")
  {
    ConfidenceTag();
    assert 'c' !in "answer: ";
    FramedLacksTag("answer: ", id, '\n', "confidence: ");
    assert "answer: " + id + "\n" == "answer: " + id + ['\n'];
  }

  /** Under the default `("HIGH")`, any non-empty piece of "HIGH" is an admitted level, "H" among them. */
  lemma DefaultAdmitsFragments()
    ensures Admits(DefaultConfidence, "HIGH")
    ensures Admits(DefaultConfidence, "H")
    ensures Admits(DefaultConfidence, "IG")
    ensures !Admits(DefaultConfidence, "LOW")
  {
    var t := "HIGH";
    assert t[..4] == "HIGH" && t[..1] == "H";
    assert t[1..] == "IGH" && "IGH"[..2] == "IG";
    assert Contains(t[1..], "IG");
    assert t[..3][0] != "LOW"[0] && "IGH"[..3][0] != "LOW"[0];
    assert "IGH"[1..] == "GH";
    assert !Contains("GH", "LOW");
    assert !Contains("IGH", "LOW");
  }

  /** So a reply `answer: C1` / `confidence: H` is accepted under the default. */
  lemma DefaultAcceptsLevelH()
    ensures Verdict(GroundingReply("C1", "H", ""), DefaultConfidence) == Some(Grounding("C1", "H"))
  {
    DefaultAdmitsFragments();
    assert Lower("C1") == "c1";
    assert !Contains("c1", "none");
    WellFormedReply("C1", "H", "", DefaultConfidence);
  }

  /** The CURIE `HP:0001250` holds neither the confidence tag nor "none". */
  lemma CurieId()
    ensures !Contains("HP:0001250", "confidence: ") && !Contains(Lower("HP:0001250"), "none")
  {
    assert Lower("HP:0001250") == "hp:0001250";
    ContainsSkip("hp:0001250", "", "none");
    assert "hp:0001250" + "" == "hp:0001250";
  }

  /** An ontology CURIE, colon included, is captured and accepted like any other id. */
  lemma CurieReplyAccepted()
    ensures Verdict(GroundingReply("HP:0001250", "HIGH", ""), IntendedConfidence) == Some(Grounding("HP:0001250", "HIGH"))
  {
    CurieId();
    WellFormedReply("HP:0001250", "HIGH", "", IntendedConfidence);
  }

  /** With the tuple the default stands for, "HIGH" is the only level accepted. */
  lemma IntendedAdmitsOnlyHigh(level: string)
    ensures Admits(IntendedConfidence, level) <==> level == "HIGH"
  {
  }

  /** A well-formed reply under the intended default is accepted exactly when the level is `HIGH`. */
  lemma IntendedWellFormedReply(id: string, level: string, rest: string)
    requires id != [] && '\n' !in id && !Contains(id, "confidence: ") && !Contains(Lower(id), "none")
    requires level != [] && forall c :: c in level ==> 'A' <= c <= 'Z'
    requires rest == [] || !('A' <= rest[0] <= 'Z')
    ensures Verdict(GroundingReply(id, level, rest), IntendedConfidence).Some? <==> level == "HIGH"
  {
    WellFormedReply(id, level, rest, IntendedConfidence);
  }

  // ---------------------------------------------------------------------------------------
  // The mention list of `extract`
  // ---------------------------------------------------------------------------------------

  /** One item of `extract`'s comprehension: `m.strip()` when it is non-empty and `m` has no "none" in any case. */
  function MentionOf(p: string): (m: Option<string>)
    ensures m.None? <==> Strip(p) == [] || Contains(Lower(p), "none")
    ensures m.Some? ==> m.value == Strip(p) && m.value != [] && Strip(m.value) == m.value
    ensures m.Some? ==> !Contains(Lower(m.value), "none")
  {
    StripIdempotent(p);
    if Strip(p) != [] && !Contains(Lower(p), "none") then
      assert !Contains(Lower(Strip(p)), "none") by {
        if Contains(Lower(Strip(p)), "none") {
          StripContains(p, "none");
          assert false;
        }
      }
      Some(Strip(p))
    else None
  }

  /**
   * `[m.strip() for m in parts if m.strip() and "none" not in m.lower()]`: every item that is
   * not blank and has no "none" is kept, stripped; no kept mention is blank or has "none".
   */
  function KeepMentions(parts: seq<string>): (ms: seq<string>)
    ensures |ms| <= |parts|
    ensures forall i :: 0 <= i < |ms| ==> ms[i] != [] && Strip(ms[i]) == ms[i] && !Contains(Lower(ms[i]), "none")
    ensures forall j :: 0 <= j < |parts| && Strip(parts[j]) != [] && !Contains(Lower(parts[j]), "none") ==>
              Strip(parts[j]) in ms
  {
    FilterMapOrigin(parts, MentionOf);
    FilterMapKeeps(parts, MentionOf);
    FilterMap(parts, MentionOf)
  }

  /** `reply.split(":", 1)[-1].strip().split(";")`. */
  function MentionItems(reply: string): seq<string> {
    Split(Strip(AfterFirst(reply, ':')), ";")
  }

  /** The ordered mention list `extract` takes from the chat model's reply. */
  function ParseMentions(reply: string): seq<string> {
    KeepMentions(MentionItems(reply))
  }

  /** `" " + y` for each `y`. */
  function Prefixed(ys: seq<string>): (r: seq<string>)
    ensures |r| == |ys| && forall i :: 0 <= i < |ys| ==> r[i] == " " + ys[i]
  {
    seq(|ys|, i requires 0 <= i < |ys| => " " + ys[i])
  }

  /** A clean mention: non-empty, already stripped, no `;`, and no "none" in any letter case. */
  predicate CleanMention(x: string) {
    x != [] && Strip(x) == x && ';' !in x && !Contains(Lower(x), "none")
  }

  /** Splitting `" " + "; ".join(ys)` on `;` leaves each item with its leading space. */
  lemma {:induction false} SplitSpaced(ys: seq<string>)
    requires |ys| >= 1 && forall i :: 0 <= i < |ys| ==> ';' !in ys[i]
    ensures Split(" " + Join("; ", ys), ";") == Prefixed(ys)
    decreases |ys|
  {
    if |ys| == 1 {
      SplitNone(" " + ys[0], ';');
    } else {
      var j := Join("; ", ys[1..]);
      JoinSemicolon(ys);
      assert " " + Join("; ", ys) == (" " + ys[0]) + [';'] + (" " + j);
      SplitAtFirst(" " + ys[0], ';', " " + j);
      SplitSpaced(ys[1..]);
    }
  }

  /** `"; ".join(xs)` is the first item, `;`, and a space before the others joined. */
  lemma JoinSemicolon(xs: seq<string>)
    requires |xs| >= 2
    ensures Join("; ", xs) == xs[0] + [';'] + (" " + Join("; ", xs[1..]))
  {
    var j := Join("; ", xs[1..]);
    assert Join("; ", xs) == xs[0] + "; " + j;
  }

  /** `"; ".join(xs)` splits on `;` into the first item and the others with their leading space. */
  lemma SplitMentionList(xs: seq<string>)
    requires |xs| >= 1 && forall i :: 0 <= i < |xs| ==> ';' !in xs[i]
    ensures Split(Join("; ", xs), ";") == [xs[0]] + Prefixed(xs[1..])
  {
    if |xs| == 1 {
      SplitNone(xs[0], ';');
    } else {
      var j := Join("; ", xs[1..]);
      JoinSemicolon(xs);
      SplitAtFirst(xs[0], ';', " " + j);
      SplitSpaced(xs[1..]);
    }
  }

  /** A leading space changes neither the stripped item nor whether it mentions "none". */
  lemma SpaceInvisible(y: string)
    ensures Strip(" " + y) == Strip(y)
    ensures Contains(Lower(" " + y), "none") <==> Contains(Lower(y), "none")
  {
    StripSpaceFront(y);
    assert Lower(" " + y) == " " + Lower(y);
    ContainsSkip(" ", Lower(y), "none");
  }

  /** A clean mention after a space is kept, without the space. */
  lemma KeepSpaced(y: string)
    requires CleanMention(y)
    ensures MentionOf(" " + y) == Some(y)
  {
    SpaceInvisible(y);
  }

  /** Clean mentions each keep their place when they come with a leading space. */
  lemma KeepPrefixed(ys: seq<string>)
    requires forall i :: 0 <= i < |ys| ==> CleanMention(ys[i])
    ensures KeepMentions(Prefixed(ys)) == ys
  {
    forall i | 0 <= i < |ys|
      ensures MentionOf(Prefixed(ys)[i]) == Some(ys[i])
    {
      KeepSpaced(ys[i]);
    }
    FilterMapAll(Prefixed(ys), MentionOf, ys);
  }

  /** A clean mention is kept as it is. */
  lemma KeepClean(x: string)
    requires CleanMention(x)
    ensures MentionOf(x) == Some(x)
  {
  }

  /** What follows the first colon of `head:t`, when `head` has none, is `t`. */
  lemma AfterHeading(head: string, t: string)
    requires ':' !in head
    ensures AfterFirst(head + ":" + t, ':') == t
  {
    var s := head + ":" + t;
    assert s[|head|] == ':';
    assert s[..|head|] == head;
    var i :| 0 <= i < |s| && s[i] == ':' && ':' !in s[..i] && AfterFirst(s, ':') == s[i + 1..];
    assert i == |head|;
  }

  /** The items `extract` splits from a reply with a heading and mentions joined by "; ". */
  lemma MentionItemsOfList(head: string, xs: seq<string>)
    requires ':' !in head
    requires |xs| >= 1 && forall i :: 0 <= i < |xs| ==> ';' !in xs[i]
    requires xs[0] != [] && !IsSpace(xs[0][0])
    requires xs[|xs| - 1] != [] && !IsSpace(xs[|xs| - 1][|xs[|xs| - 1]| - 1])
    ensures MentionItems(head + ": " + Join("; ", xs)) == [xs[0]] + Prefixed(xs[1..])
  {
    var j := Join("; ", xs);
    assert head + ": " + j == head + ":" + (" " + j);
    AfterHeading(head, " " + j);
    StripSpaceFront(j);
    JoinStripped("; ", xs);
    SplitMentionList(xs);
  }

  /** Clean mentions, the first bare and the others after a space, are all kept. */
  lemma KeepMentionList(xs: seq<string>)
    requires |xs| >= 1 && forall i :: 0 <= i < |xs| ==> CleanMention(xs[i])
    ensures KeepMentions([xs[0]] + Prefixed(xs[1..])) == xs
  {
    KeepClean(xs[0]);
    KeepPrefixed(xs[1..]);
    FilterMapCons(xs[0], Prefixed(xs[1..]), MentionOf, xs[0]);
    HeadTail(xs);
  }

  /** A reply with a heading and nothing after the colon has no mentions. */
  lemma EmptyMentionList(head: string)
    requires ':' !in head
    ensures ParseMentions(head + ": ") == []
  {
    assert head + ": " == head + ":" + " ";
    AfterHeading(head, " ");
    assert Strip(" ") == "";
    assert MentionItems(head + ": ") == [""];
  }

  /**
   * A reply in the format the extraction prompt asks for, a heading, a colon and the
   * mentions joined by "; ", yields exactly those mentions, in order.
   */
  lemma MentionsRoundTrip(head: string, xs: seq<string>)
    requires ':' !in head
    requires forall i :: 0 <= i < |xs| ==> CleanMention(xs[i])
    ensures ParseMentions(head + ": " + Join("; ", xs)) == xs
  {
    if xs == [] {
      assert head + ": " + Join("; ", xs) == head + ": ";
      EmptyMentionList(head);
    } else {
      CleanListShape(xs);
      MentionItemsOfList(head, xs);
      KeepMentionList(xs);
    }
  }

  /** A list of clean mentions meets what splitting the joined list needs. */
  lemma CleanListShape(xs: seq<string>)
    requires |xs| >= 1 && forall i :: 0 <= i < |xs| ==> CleanMention(xs[i])
    ensures forall i :: 0 <= i < |xs| ==> ';' !in xs[i]
    ensures xs[0] != [] && !IsSpace(xs[0][0])
    ensures xs[|xs| - 1] != [] && !IsSpace(xs[|xs| - 1][|xs[|xs| - 1]| - 1])
  {
    CleanEnds(xs[0]);
    CleanEnds(xs[|xs| - 1]);
  }

  /** A clean mention has no whitespace at its ends and no ";". */
  lemma CleanEnds(x: string)
    requires CleanMention(x)
    ensures x != [] && !IsSpace(x[0]) && !IsSpace(x[|x| - 1]) && ';' !in x
  {
  }

  /** The items of a "None" reply, with or without a heading. */
  lemma NoneItems(head: string)
    requires ':' !in head
    ensures MentionItems("None") == ["None"]
    ensures MentionItems(head + ": None") == ["None"]
  {
    NoneSplit();
    assert ':' !in "None";
    assert AfterFirst("None", ':') == "None";
    var s := head + ": None";
    assert s == head + ":" + " None";
    AfterHeading(head, " None");
    SpacedNone();
  }

  /** The leading space of " None" goes with `strip()`. */
  lemma SpacedNone()
    ensures Strip(" None") == Strip("None")
  {
    assert " None" == " " + "None";
    StripSpaceFront("None");
  }

  /** "None" is its own strip and has no ";". */
  lemma NoneSplit()
    ensures Split(Strip("None"), ";") == ["None"]
  {
    StripTrimmed("None");
    assert ';' !in "None";
    SplitNone("None", ';');
  }

  /** "None" is dropped from the mention list. */
  lemma NoneDropped()
    ensures KeepMentions(["None"]) == []
  {
    assert Lower("None") == "none";
    assert Contains("none", "none");
    assert MentionOf("None") == None;
  }

  /** A reply of "None" yields no mentions, with or without a heading. */
  lemma NoneReplyIsEmpty(head: string)
    requires ':' !in head
    ensures ParseMentions("None") == []
    ensures ParseMentions(head + ": None") == []
  {
    NoneItems(head);
    NoneDropped();
  }

  // ---------------------------------------------------------------------------------------
  // The define-mode reply of `extract`
  // ---------------------------------------------------------------------------------------

  /** A string holding `c` splits on `c` into at least two parts. */
  lemma SplitHasTwo(t: string, c: char)
    requires c in t
    ensures |Split(t, [c])| >= 2
  {
    var i :| 0 <= i < |t| && t[i] == c;
    FirstIndex(t, c, i);
    var j :| 0 <= j <= i && t[j] == c && c !in t[..j];
    assert t == t[..j] + [c] + t[j + 1..];
    SplitAtFirst(t[..j], c, t[j + 1..]);
  }

  /** There is a first occurrence of `c` at or before any occurrence `i`. */
  lemma {:induction false} FirstIndex(t: string, c: char, i: nat)
    requires i < |t| && t[i] == c
    ensures exists j :: 0 <= j <= i && t[j] == c && c !in t[..j]
    decreases i
  {
    if c in t[..i] {
      var k :| 0 <= k < i && t[..i][k] == c;
      FirstIndex(t, c, k);
    } else {
      assert t[i] == c && c !in t[..i];
    }
  }

  /** `{"label": label, "definition": definition}`. */
  function DefinitionRecord(name: string, definition: string): Record {
    [("label", PyStr(name)), ("definition", PyStr(definition))]
  }

  /**
   * One line of the define-mode reply: when its stripped form holds a `:`, the first two
   * `:`-segments, stripped, are the label and the definition.
   */
  function DefinitionOf(line: string): Option<Record> {
    var t := Strip(line);
    if ':' !in t then None
    else
      SplitHasTwo(t, ':');
      var toks := Split(t, ":");
      Some(DefinitionRecord(Strip(toks[0]), Strip(toks[1])))
  }

  /** The records of the lines that hold a colon, in line order. */
  function Definitions(lines: seq<string>): (ds: seq<Record>)
    ensures |ds| <= |lines|
    ensures forall i :: 0 <= i < |ds| ==> exists j :: 0 <= j < |lines| && DefinitionOf(lines[j]) == Some(ds[i])
  {
    FilterMapOrigin(lines, DefinitionOf);
    FilterMap(lines, DefinitionOf)
  }

  /** The define-mode records: one per line of the reply that holds a colon. */
  function ParseDefinitions(reply: string): seq<Record> {
    Definitions(Split(reply, "\n"))
  }

  /**
   * A stripped line `a:b` followed by nothing or by more `:`-segments gives label `a` and
   * definition `b`, both stripped; what follows the second colon is ignored.
   */
  lemma DefinitionSegments(line: string, a: string, b: string, rest: string)
    requires Strip(line) == a + ":" + b + rest
    requires ':' !in a && ':' !in b
    requires rest == [] || rest[0] == ':'
    ensures DefinitionOf(line) == Some(DefinitionRecord(Strip(a), Strip(b)))
  {
    var t := Strip(line);
    assert t[|a|] == ':';
    assert t == a + [':'] + (b + rest);
    SplitAtFirst(a, ':', b + rest);
    if rest == [] {
      assert b + rest == b;
      SplitNone(b, ':');
    } else {
      assert b + rest == b + [':'] + rest[1..];
      SplitAtFirst(b, ':', rest[1..]);
    }
  }

  /** A line whose stripped form has no colon gives no record. */
  lemma NoColonNoDefinition(line: string)
    requires ':' !in Strip(line)
    ensures DefinitionOf(line) == None
  {
  }

  /** A clean label or definition: non-empty, already stripped, no `:` and no line break. */
  predicate CleanField(x: string) {
    x != [] && Strip(x) == x && ':' !in x && '\n' !in x
  }

  /** `label: definition`. */
  function DefinitionLine(p: (string, string)): string {
    p.0 + ": " + p.1
  }

  function DefinitionLines(ps: seq<(string, string)>): (ls: seq<string>)
    ensures |ls| == |ps| && forall i :: 0 <= i < |ps| ==> ls[i] == DefinitionLine(ps[i])
  {
    seq(|ps|, i requires 0 <= i < |ps| => DefinitionLine(ps[i]))
  }

  /** One `label: definition` line gives back its label and definition. */
  lemma DefinitionLineRoundTrip(p: (string, string))
    requires CleanField(p.0) && CleanField(p.1)
    ensures DefinitionOf(DefinitionLine(p)) == Some(DefinitionRecord(p.0, p.1))
  {
    var line := DefinitionLine(p);
    assert line[0] == p.0[0];
    assert line[|line| - 1] == p.1[|p.1| - 1];
    StripTrimmed(line);
    assert line == p.0 + ":" + (" " + p.1) + "";
    StripSpaceFront(p.1);
    DefinitionSegments(line, p.0, " " + p.1, "");
  }

  /** The reply lines each hold a colon and are clean: the records are exactly the pairs, in order. */
  lemma DefinitionsOfLines(ps: seq<(string, string)>)
    requires forall i :: 0 <= i < |ps| ==> CleanField(ps[i].0) && CleanField(ps[i].1)
    ensures Definitions(DefinitionLines(ps)) == seq(|ps|, i requires 0 <= i < |ps| => DefinitionRecord(ps[i].0, ps[i].1))
  {
    var ls := DefinitionLines(ps);
    var ds := seq(|ps|, i requires 0 <= i < |ps| => DefinitionRecord(ps[i].0, ps[i].1));
    forall i | 0 <= i < |ls|
      ensures DefinitionOf(ls[i]) == Some(ds[i])
    {
      DefinitionLineRoundTrip(ps[i]);
    }
    FilterMapAll(ls, DefinitionOf, ds);
  }

  /**
   * A define-mode reply in the format the prompt asks for, one `label: definition` line per
   * entity, yields one record per line with that label and definition, in order.
   */
  lemma DefinitionsRoundTrip(ps: seq<(string, string)>)
    requires |ps| >= 1
    requires forall i :: 0 <= i < |ps| ==> CleanField(ps[i].0) && CleanField(ps[i].1)
    ensures ParseDefinitions(Join("\n", DefinitionLines(ps))) ==
            seq(|ps|, i requires 0 <= i < |ps| => DefinitionRecord(ps[i].0, ps[i].1))
  {
    var ls := DefinitionLines(ps);
    forall i | 0 <= i < |ls|
      ensures '\n' !in ls[i]
    {
      assert ls[i] == ps[i].0 + ": " + ps[i].1;
    }
    SplitJoin(ls, '\n');
    DefinitionsOfLines(ps);
  }
}
