/**
 * The exact-match vocabulary of the recogniser: the table `Lumus.init_vocab` fills from the
 * records of a collection (lower-cased label and synonyms to concept id), and the
 * `find_exact` lookup `grab_candidates` runs against it.
 */
module Vocabulary {
  import opened Wrappers
  import opened PyStrings
  import opened PyValues

  /** `term.get("synonyms", "")`. */
  function Synonyms(t: Record): Value {
    if HasKey(t, "synonyms") then Get(t, "synonyms").value else PyStr("")
  }

  /** The lower-cased items of `syns.split(", ")`. */
  function SynonymKeys(syns: string): (ks: seq<string>)
    ensures |ks| == |Split(syns, ", ")|
    ensures forall i :: 0 <= i < |ks| ==> ks[i] == Lower(Split(syns, ", ")[i])
  {
    var parts := Split(syns, ", ");
    seq(|parts|, i requires 0 <= i < |parts| => Lower(parts[i]))
  }

  /** A record `init_vocab` takes in without raising: an id, a string label, and synonyms that are a string or falsy. */
  predicate TermOk(t: Record) {
    && HasKey(t, "id")
    && HasKey(t, "label")
    && Get(t, "label").value.PyStr?
    && (Truthy(Synonyms(t)) ==> Synonyms(t).PyStr?)
  }

  /** The vocabulary keys a record writes, in the order they are written (all of them when `TermOk` holds). */
  function TermKeys(t: Record): seq<string> {
    var name := Get(t, "label");
    var syns := Synonyms(t);
    (if name.Some? && name.value.PyStr? then [Lower(name.value.s)] else [])
    + (if Truthy(syns) && syns.PyStr? then SynonymKeys(syns.s) else [])
  }

  /** `for key in keys: voc[key] = v`. */
  function SetAll(voc: Record, keys: seq<string>, v: Value): (r: Record)
    ensures forall k :: Get(r, k) == if k in keys then Some(v) else Get(voc, k)
    ensures UniqueKeys(voc) ==> UniqueKeys(r)
  {
    if keys == [] then voc
    else Set(SetAll(voc, keys[..|keys| - 1], v), keys[|keys| - 1], v)
  }

  /** `SetAll` over one more key. */
  lemma SetAllStep(voc: Record, keys: seq<string>, j: nat, v: Value)
    requires j < |keys|
    ensures SetAll(voc, keys[..j + 1], v) == Set(SetAll(voc, keys[..j], v), keys[j], v)
  {
    assert keys[..j + 1][..j] == keys[..j];
  }

  /**
   * One iteration of `init_vocab`'s loop. `term["id"]` is evaluated before the label (it is
   * the right-hand side of the assignment); a failure in the synonyms leaves the label entry written.
   */
  function AddTerm(voc: Record, t: Record): (r: (Record, Option<Error>))
    ensures r.1.None? <==> TermOk(t)
    ensures r.1.None? ==> forall k :: Get(r.0, k) == if k in TermKeys(t) then Get(t, "id") else Get(voc, k)
    ensures UniqueKeys(voc) ==> UniqueKeys(r.0)
  {
    match Get(t, "id")
    case None => (voc, Some(KeyError("id")))
    case Some(id) =>
      match Get(t, "label")
      case None => (voc, Some(KeyError("label")))
      case Some(name) =>
        if !name.PyStr? then (voc, Some(AttributeError("lower")))
        else
          var named := Set(voc, Lower(name.s), id);
          var syns := Synonyms(t);
          if !Truthy(syns) then (named, None)
          else if !syns.PyStr? then (named, Some(AttributeError("split")))
          else (SetAll(named, SynonymKeys(syns.s), id), None)
  }

  /** `init_vocab` over the records `terms`, starting from `voc`; the first failing record stops it. */
  function InitVocab(voc: Record, terms: seq<Record>): (r: (Record, Option<Error>))
    ensures r.1.None? <==> forall i :: 0 <= i < |terms| ==> TermOk(terms[i])
    ensures UniqueKeys(voc) ==> UniqueKeys(r.0)
  {
    if terms == [] then (voc, None)
    else
      var prev := InitVocab(voc, terms[..|terms| - 1]);
      assert forall i :: 0 <= i < |terms| - 1 ==> terms[..|terms| - 1][i] == terms[i];
      if prev.1.Some? then prev else AddTerm(prev.0, terms[|terms| - 1])
  }

  /** `InitVocab` over one more record. */
  lemma InitVocabStep(voc: Record, terms: seq<Record>, i: nat)
    requires i < |terms|
    ensures var prev := InitVocab(voc, terms[..i]);
            InitVocab(voc, terms[..i + 1]) == if prev.1.Some? then prev else AddTerm(prev.0, terms[i])
  {
    assert terms[..i + 1][..i] == terms[..i];
  }

  /** Once a record fails, the records after it change nothing. */
  lemma {:induction false} InitVocabSticks(voc: Record, terms: seq<Record>, n: nat)
    requires n <= |terms| && InitVocab(voc, terms[..n]).1.Some?
    ensures InitVocab(voc, terms) == InitVocab(voc, terms[..n])
    decreases |terms|
  {
    if n == |terms| {
      assert terms[..n] == terms;
    } else {
      var init := terms[..|terms| - 1];
      assert init[..n] == terms[..n];
      InitVocabSticks(voc, init, n);
    }
  }

  /** The keys each record writes. */
  function KeyLists(terms: seq<Record>): (ls: seq<seq<string>>)
    ensures |ls| == |terms| && forall i :: 0 <= i < |terms| ==> ls[i] == TermKeys(terms[i])
  {
    seq(|terms|, i requires 0 <= i < |terms| => TermKeys(terms[i]))
  }

  /** The position of the last list holding `k`, or -1 when none does. */
  function LastIndex(lists: seq<seq<string>>, k: string): (r: int)
    ensures -1 <= r < |lists|
    ensures r == -1 ==> forall i :: 0 <= i < |lists| ==> k !in lists[i]
    ensures r >= 0 ==> k in lists[r] && forall j :: r < j < |lists| ==> k !in lists[j]
  {
    if lists == [] then -1
    else if k in lists[|lists| - 1] then |lists| - 1
    else LastIndex(lists[..|lists| - 1], k)
  }

  /**
   * After `init_vocab`, every key written maps to the id of the LAST record that wrote it
   * (label or synonym alike); keys no record writes keep their old value.
   */
  lemma {:induction false} InitVocabLastWriter(voc: Record, terms: seq<Record>, k: string)
    requires forall i :: 0 <= i < |terms| ==> TermOk(terms[i])
    ensures var w := LastIndex(KeyLists(terms), k);
            Get(InitVocab(voc, terms).0, k) == if w >= 0 then Get(terms[w], "id") else Get(voc, k)
    decreases |terms|
  {
    if terms != [] {
      var n := |terms| - 1;
      var init := terms[..n];
      assert KeyLists(terms)[..n] == KeyLists(init);
      InitVocabLastWriter(voc, init, k);
      InitVocabSnoc(voc, terms);
    }
  }

  /** When every record is accepted, the last one is applied to the table the others built. */
  lemma InitVocabSnoc(voc: Record, terms: seq<Record>)
    requires terms != [] && forall i :: 0 <= i < |terms| ==> TermOk(terms[i])
    ensures InitVocab(voc, terms) == AddTerm(InitVocab(voc, terms[..|terms| - 1]).0, terms[|terms| - 1])
  {
    var init := terms[..|terms| - 1];
    assert forall i :: 0 <= i < |init| ==> init[i] == terms[i];
  }

  /** Characters with a meaning of their own in a Python regular expression. */
  predicate RegexLiteral(s: string) {
    forall c :: c in s ==> c !in ".^$*+?{}[]\\|()"
  }

  predicate NoBrackets(s: string) {
    '<' !in s && '>' !in s
  }

  /** `f'<{y}>'` for each `y`. */
  function Bracketed(ys: seq<string>): (bs: seq<string>)
    ensures |bs| == |ys| && forall i :: 0 <= i < |ys| ==> bs[i] == "<" + ys[i] + ">"
  {
    seq(|ys|, i requires 0 <= i < |ys| => "<" + ys[i] + ">")
  }

  /** The stripped keys of the vocabulary, in order. */
  function StrippedKeys(vocab: Record): (ks: seq<string>)
    ensures |ks| == |vocab| && forall i :: 0 <= i < |vocab| ==> ks[i] == Strip(vocab[i].0)
  {
    seq(|vocab|, i requires 0 <= i < |vocab| => Strip(vocab[i].0))
  }

  /** `find_exact`'s search text: `' '.join(f'<{item.strip()}>' for item in vocab)`. */
  function SourceString(vocab: Record): string {
    Join(" ", Bracketed(StrippedKeys(vocab)))
  }

  /**
   * `find_exact(input, vocab)`. The pattern `<input.lower()>` is searched for in the source
   * string as literal text, which is what the regular expression does for an input free of
   * regex metacharacters (`RegexLiteral`): the match is then the pattern itself, and the key
   * looked up is the pattern with `<` and `>` stripped from its ends. A match whose key is not
   * in `vocab` raises `KeyError`.
   */
  function FindExact(input: string, vocab: Record): (r: Result<Value, Error>)
    ensures r.Err? ==> !HasKey(vocab, StripChars("<" + Lower(input) + ">", "<>"))
    ensures r.Ok? && r.value != PyStr("") ==> Get(vocab, StripChars("<" + Lower(input) + ">", "<>")) == Some(r.value)
  {
    var pattern := "<" + Lower(input) + ">";
    if Contains(SourceString(vocab), pattern) then
      var key := StripChars(pattern, "<>");
      match Get(vocab, key)
      case Some(v) => Ok(v)
      case None => Err(KeyError(key))
    else Ok(PyStr(""))
  }

  /** Stripping `<` and `>` from the ends of `<x>` gives `x` back when `x` has neither. */
  lemma StripBrackets(x: string)
    requires NoBrackets(x)
    ensures StripChars("<" + x + ">", "<>") == x
  {
    var s := "<" + x + ">";
    assert s[1..] == x + ">";
    assert StripChars(s, "<>") == StripChars(x + ">", "<>");
    if x == [] {
      assert StripChars(">", "<>") == StripChars("", "<>");
    } else {
      assert (x + ">")[0] == x[0];
      assert (x + ">")[..|x + ">"| - 1] == x;
      assert StripChars(x + ">", "<>") == StripChars(x, "<>");
    }
  }

  /** `<x>` starts `<y>` followed by anything exactly when `x == y`, as neither holds a `>`. */
  lemma BracketPrefix(x: string, y: string, rest: string)
    requires '>' !in x && '>' !in y
    ensures StartsWith("<" + y + ">" + rest, "<" + x + ">") <==> x == y
  {
    var s := "<" + y + ">" + rest;
    var p := "<" + x + ">";
    if StartsWith(s, p) {
      assert s[..|p|] == p;
      assert s[|x| + 1] == p[|x| + 1] == '>';
      assert |x| >= |y|;
      assert s[|y| + 1] == '>';
      assert p[|y| + 1] == s[|y| + 1];
      assert |x| == |y|;
      assert x == p[1..|x| + 1] == s[1..|x| + 1] == y;
    }
  }

  /** The bracketed pattern `<x>` occurs in the joined, bracketed items exactly when `x` is one of them. */
  lemma {:induction false} FoundIff(ys: seq<string>, x: string)
    requires NoBrackets(x)
    requires forall i :: 0 <= i < |ys| ==> NoBrackets(ys[i])
    ensures Contains(Join(" ", Bracketed(ys)), "<" + x + ">") <==> x in ys
    decreases |ys|
  {
    var p := "<" + x + ">";
    if ys != [] {
      var b := "<" + ys[0] + ">";
      var tail := if |ys| == 1 then "" else " " + Join(" ", Bracketed(ys[1..]));
      assert Bracketed(ys)[1..] == Bracketed(ys[1..]);
      assert Join(" ", Bracketed(ys)) == b + tail;
      var s := b + tail;
      assert s[1..] == (ys[0] + ">") + tail;
      ContainsSkip(ys[0] + ">", tail, p);
      BracketPrefix(x, ys[0], tail);
      if |ys| == 1 {
        assert !Contains(tail, p);
      } else {
        FoundIff(ys[1..], x);
        ContainsSkip(" ", Join(" ", Bracketed(ys[1..])), p);
      }
      assert x in ys <==> x == ys[0] || x in ys[1..];
    }
  }

  /**
   * With keys that are already stripped and free of `<` and `>`, and an input without `<`,
   * `>` or regex metacharacters, `find_exact` is a plain lookup of the lower-cased input: its
   * value when the key is present and `""` when it is not.
   */
  lemma FindExactIsLookup(input: string, vocab: Record)
    requires RegexLiteral(Lower(input)) && NoBrackets(Lower(input))
    requires forall i :: 0 <= i < |vocab| ==> Strip(vocab[i].0) == vocab[i].0 && NoBrackets(vocab[i].0)
    ensures FindExact(input, vocab) == if HasKey(vocab, Lower(input)) then Ok(Get(vocab, Lower(input)).value) else Ok(PyStr(""))
  {
    var x := Lower(input);
    assert StrippedKeys(vocab) == Keys(vocab);
    FoundIff(Keys(vocab), x);
    StripBrackets(x);
  }

  /** A vocabulary key with trailing whitespace is found by the search but not by the lookup, which raises. */
  lemma UnstrippedKeyRaises()
    ensures FindExact("flu", [("flu ", PyStr("C1"))]) == Err(KeyError("flu"))
  {
    var vocab := [("flu ", PyStr("C1"))];
    FluPattern();
    FluSource();
    assert !HasKey(vocab, "flu");
  }

  /** The search pattern for `flu`, its presence in itself, and the key it stands for. */
  lemma FluPattern()
    ensures "<" + Lower("flu") + ">" == "<flu>"
    ensures Contains("<flu>", "<flu>")
    ensures StripChars("<flu>", "<>") == "flu"
  {
    assert Lower("flu") == "flu";
    assert "<flu>"[..5] == "<flu>";
    StripBrackets("flu");
    assert "<" + "flu" + ">" == "<flu>";
  }

  /** The search text of that vocabulary. */
  lemma FluSource()
    ensures SourceString([("flu ", PyStr("C1"))]) == "<flu>"
  {
    var vocab := [("flu ", PyStr("C1"))];
    assert Strip("flu ") == "flu" by {
      assert SpanLeft("flu ") == 0;
      assert SpanRight("flu ") == 1;
      assert "flu "[0..] == "flu ";
    }
    assert StrippedKeys(vocab) == ["flu"];
    assert "<" + "flu" + ">" == "<flu>";
    assert Bracketed(["flu"]) == ["<flu>"];
  }
}
