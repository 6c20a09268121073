/**
 The error sanitizers of app/processing/worker.ts. The worker and the repository each run
 them, so what matters is what a second pass changes. Text is a list of UTF-16 code units.
 */
module ErrorText {
  type CodeUnit = c: int | 0 <= c < 0x1_0000
  type Text = seq<CodeUnit>

  const SPACE: CodeUnit := 32
  const MESSAGE_LIMIT := 280
  const CODE_LIMIT := 64

  /** ASCII text as code units. */
  function Ascii(s: string): (t: Text)
    ensures |t| == |s|
  {
    seq(|s|, i requires 0 <= i < |s| => if s[i] as int < 0x80 then s[i] as int else 0)
  }

  /** The class `\s`, which is also what `trim` strips. */
  predicate IsSpace(c: CodeUnit) {
    9 <= c <= 13 || c == 32 || c == 0xA0 || c == 0x1680 || 0x2000 <= c <= 0x200A
    || c == 0x2028 || c == 0x2029 || c == 0x202F || c == 0x205F || c == 0x3000 || c == 0xFEFF
  }

  /** `replace(/\s+/g, " ")`. */
  function Collapse(t: Text): Text {
    if t == [] then []
    else if !IsSpace(t[0]) then [t[0]] + Collapse(t[1..])
    else if |t| > 1 && IsSpace(t[1]) then Collapse(t[1..])
    else [SPACE] + Collapse(t[1..])
  }

  function TrimStart(t: Text): Text {
    if t != [] && IsSpace(t[0]) then TrimStart(t[1..]) else t
  }

  function TrimEnd(t: Text): Text {
    if t != [] && IsSpace(t[|t| - 1]) then TrimEnd(t[..|t| - 1]) else t
  }

  function Trim(t: Text): Text {
    TrimEnd(TrimStart(t))
  }

  function Cut(t: Text, limit: nat): Text {
    if |t| > limit then t[..limit] else t
  }

  /** The text before it is cut. */
  function Tidy(raw: Text): Text {
    Trim(Collapse(raw))
  }

  function SanitizeErrorMessage(raw: Text): Text {
    if Tidy(raw) == [] then Ascii("unknown_error") else Cut(Tidy(raw), MESSAGE_LIMIT)
  }

  predicate IsCodeUnit(c: CodeUnit) {
    0x61 <= c <= 0x7A || 0x30 <= c <= 0x39 || c == 0x5F
  }

  /**
   `toLowerCase()` followed by `replace(/[^a-z0-9_]/g, "_")`, unit by unit. Outside ASCII
   only KELVIN SIGN and I WITH DOT ABOVE have a lower case with an ASCII letter in it.
   */
  function LowerAndMask(t: Text): Text {
    if t == [] then [] else MaskUnit(t[0]) + LowerAndMask(t[1..])
  }

  function MaskUnit(c: CodeUnit): Text {
    if 0x41 <= c <= 0x5A then [c + 0x20]
    else if IsCodeUnit(c) then [c]
    else if c == 0x212A then [0x6B]
    else if c == 0x130 then [0x69, 0x5F]
    else [0x5F]
  }

  function SanitizeErrorCode(value: Text): Text {
    var normalized := LowerAndMask(Trim(value));
    if normalized == [] then Ascii("unknown_error") else Cut(normalized, CODE_LIMIT)
  }

  // ----- messages

  predicate SingleSpaced(t: Text) {
    && (forall i | 0 <= i < |t| :: IsSpace(t[i]) ==> t[i] == SPACE)
    && forall i | 0 < i < |t| :: !(IsSpace(t[i - 1]) && IsSpace(t[i]))
  }

  /** What one pass guarantees. */
  predicate OncePassed(t: Text) {
    0 < |t| <= MESSAGE_LIMIT && SingleSpaced(t) && !IsSpace(t[0])
  }

  /** What no further pass changes. */
  predicate StableMessage(t: Text) {
    OncePassed(t) && !IsSpace(t[|t| - 1])
  }

  lemma {:induction false} CollapseSingleSpaces(t: Text)
    ensures SingleSpaced(Collapse(t))
    ensures t != [] ==> Collapse(t) != [] && (IsSpace(Collapse(t)[0]) <==> IsSpace(t[0]))
  {
    if t != [] {
      CollapseSingleSpaces(t[1..]);
    }
  }

  lemma {:induction false} CollapseKeepsSingleSpaced(t: Text)
    requires SingleSpaced(t)
    ensures Collapse(t) == t
  {
    if t != [] {
      var rest := t[1..];
      forall i | 0 < i < |rest| ensures !(IsSpace(rest[i - 1]) && IsSpace(rest[i])) {
        assert rest[i - 1] == t[i] && rest[i] == t[i + 1];
      }
      CollapseKeepsSingleSpaced(rest);
    }
  }

  lemma {:induction false} TrimStartDrops(t: Text) returns (n: nat)
    ensures n <= |t| && TrimStart(t) == t[n..] && (forall i | 0 <= i < n :: IsSpace(t[i]))
    ensures n < |t| ==> !IsSpace(t[n])
  {
    if t != [] && IsSpace(t[0]) {
      var m := TrimStartDrops(t[1..]);
      n := m + 1;
      assert t[1..][m..] == t[n..];
    } else {
      n := 0;
    }
  }

  lemma {:induction false} TrimEndDrops(t: Text) returns (n: nat)
    ensures n <= |t| && TrimEnd(t) == t[..n] && (forall i | n <= i < |t| :: IsSpace(t[i]))
    ensures n > 0 ==> !IsSpace(t[n - 1])
  {
    if t != [] && IsSpace(t[|t| - 1]) {
      n := TrimEndDrops(t[..|t| - 1]);
      assert t[..|t| - 1][..n] == t[..n];
    } else {
      n := |t|;
    }
  }

  lemma TidyIsTrimmed(raw: Text)
    ensures SingleSpaced(Tidy(raw))
    ensures Tidy(raw) != [] ==> !IsSpace(Tidy(raw)[0]) && !IsSpace(Tidy(raw)[|Tidy(raw)| - 1])
  {
    CollapseSingleSpaces(raw);
    var c := Collapse(raw);
    var a := TrimStartDrops(c);
    var b := TrimEndDrops(c[a..]);
    forall i | 0 < i < |Tidy(raw)| ensures !(IsSpace(Tidy(raw)[i - 1]) && IsSpace(Tidy(raw)[i])) {
      assert Tidy(raw)[i - 1] == c[a + i - 1] && Tidy(raw)[i] == c[a + i];
    }
  }

  lemma UnknownErrorIsStable()
    ensures StableMessage(Ascii("unknown_error"))
  {
    var t := Ascii("unknown_error");
    forall i | 0 <= i < |t| ensures !IsSpace(t[i]) {
      assert t[i] == "unknown_error"[i] as int;
    }
  }

  lemma OnePassOfMessage(raw: Text)
    ensures OncePassed(SanitizeErrorMessage(raw))
  {
    TidyIsTrimmed(raw);
    UnknownErrorIsStable();
  }

  /** A pass over sanitized text strips the trailing space the cut may have left, and no more. */
  lemma PassOverOncePassed(t: Text)
    requires OncePassed(t)
    ensures SanitizeErrorMessage(t) == if IsSpace(t[|t| - 1]) then t[..|t| - 1] else t
    ensures StableMessage(SanitizeErrorMessage(t))
  {
    CollapseKeepsSingleSpaced(t);
    var n := TrimEndDrops(t);
    assert TrimStart(t) == t;
    assert |t| > 1 ==> !IsSpace(t[|t| - 2]) || !IsSpace(t[|t| - 1]);
  }

  /** After two passes every further pass returns its input; these are the only such texts. */
  lemma MessagePasses(raw: Text)
    ensures StableMessage(SanitizeErrorMessage(SanitizeErrorMessage(raw)))
    ensures SanitizeErrorMessage(raw) == raw <==> StableMessage(raw)
  {
    OnePassOfMessage(raw);
    PassOverOncePassed(SanitizeErrorMessage(raw));
    if StableMessage(raw) {
      PassOverOncePassed(raw);
    }
  }

  /** One pass is enough except when the cut falls right after a space. */
  lemma OnePassIsEnoughIff(raw: Text)
    ensures SanitizeErrorMessage(SanitizeErrorMessage(raw)) == SanitizeErrorMessage(raw) <==>
            !(|Tidy(raw)| > MESSAGE_LIMIT && IsSpace(Tidy(raw)[MESSAGE_LIMIT - 1]))
  {
    TidyIsTrimmed(raw);
    UnknownErrorIsStable();
    OnePassOfMessage(raw);
    PassOverOncePassed(SanitizeErrorMessage(raw));
  }

  // ----- codes

  predicate StableCode(t: Text) {
    0 < |t| <= CODE_LIMIT && forall i | 0 <= i < |t| :: IsCodeUnit(t[i])
  }

  lemma {:induction false} MaskedIsCode(t: Text)
    ensures forall i | 0 <= i < |LowerAndMask(t)| :: IsCodeUnit(LowerAndMask(t)[i])
  {
    if t != [] {
      MaskedIsCode(t[1..]);
    }
  }

  lemma {:induction false} MaskKeepsCode(t: Text)
    requires forall i | 0 <= i < |t| :: IsCodeUnit(t[i])
    ensures LowerAndMask(t) == t
  {
    if t != [] {
      MaskKeepsCode(t[1..]);
    }
  }

  /** Codes have 1 to 64 units of [a-z0-9_] after one pass, and exactly these are fixpoints. */
  lemma CodePasses(value: Text)
    ensures StableCode(SanitizeErrorCode(value))
    ensures SanitizeErrorCode(value) == value <==> StableCode(value)
  {
    MaskedIsCode(Trim(value));
    var unknown := Ascii("unknown_error");
    forall i | 0 <= i < |unknown| ensures IsCodeUnit(unknown[i]) {
      assert unknown[i] == "unknown_error"[i] as int;
    }
    if StableCode(value) {
      MaskKeepsCode(value);
      var n := TrimEndDrops(value);
      assert Trim(value) == value;
    }
  }

  // ----- what a message says

  lemma AsciiUnits(s: string, i: nat)
    requires i < |s| && s[i] as int < 128
    ensures Ascii(s)[i] == s[i] as int
  {
  }

  /** The words of a text: its longest stretches without a space. */
  function Words(t: Text): (r: seq<Text>)
    ensures t != [] && !IsSpace(t[0]) ==> r != []
  {
    if t == [] then []
    else if IsSpace(t[0]) then Words(t[1..])
    else if |t| == 1 || IsSpace(t[1]) then [[t[0]]] + Words(t[1..])
    else
      var rest := Words(t[1..]);
      [[t[0]] + rest[0]] + rest[1..]
  }

  function Join(words: seq<Text>): Text {
    if words == [] then []
    else if |words| == 1 then words[0]
    else words[0] + [SPACE] + Join(words[1..])
  }

  lemma {:induction false} CollapseKeepsWords(t: Text)
    ensures Words(Collapse(t)) == Words(t)
  {
    if t != [] {
      CollapseKeepsWords(t[1..]);
      if |t| > 1 {
        CollapseSingleSpaces(t[1..]);
      }
      if IsSpace(t[0]) && !(|t| > 1 && IsSpace(t[1])) {
        assert Collapse(t)[1..] == Collapse(t[1..]);
      } else if !IsSpace(t[0]) {
        assert Collapse(t)[1..] == Collapse(t[1..]);
        assert |Collapse(t)| == 1 <==> |t| == 1;
      }
    }
  }

  lemma {:induction false} TrimStartKeepsWords(t: Text)
    ensures Words(TrimStart(t)) == Words(t)
  {
    if t != [] && IsSpace(t[0]) {
      TrimStartKeepsWords(t[1..]);
    }
  }

  lemma {:induction false} WordsWithoutLastSpace(t: Text)
    requires t != [] && IsSpace(t[|t| - 1])
    ensures Words(t[..|t| - 1]) == Words(t)
  {
    if |t| > 1 {
      var front := t[..|t| - 1];
      WordsWithoutLastSpace(t[1..]);
      assert front[1..] == t[1..][..|t| - 2];
      if |t| == 2 {
        assert t[1..] == [t[1]] && Words(t[1..]) == [] && front == [t[0]];
      } else {
        assert front[1] == t[1];
      }
    }
  }

  lemma {:induction false} TrimEndKeepsWords(t: Text)
    ensures Words(TrimEnd(t)) == Words(t)
  {
    if t != [] && IsSpace(t[|t| - 1]) {
      TrimEndKeepsWords(t[..|t| - 1]);
      WordsWithoutLastSpace(t);
    }
  }

  lemma {:induction false} TrimmedIsItsWords(t: Text)
    requires SingleSpaced(t) && (t != [] ==> !IsSpace(t[0]) && !IsSpace(t[|t| - 1]))
    ensures Join(Words(t)) == t
  {
    if |t| > 1 && !IsSpace(t[1]) {
      SuffixIsSingleSpaced(t, 1);
      TrimmedIsItsWords(t[1..]);
      var rest := Words(t[1..]);
      assert ([[t[0]] + rest[0]] + rest[1..])[1..] == rest[1..];
    } else if |t| > 1 {
      assert t[1] == SPACE && |t| > 2 && !IsSpace(t[2]);
      SuffixIsSingleSpaced(t, 2);
      TrimmedIsItsWords(t[2..]);
      assert t[1..][1..] == t[2..];
      assert Words(t) == [[t[0]]] + Words(t[2..]);
      assert ([[t[0]]] + Words(t[2..]))[1..] == Words(t[2..]);
      assert t == [t[0]] + [SPACE] + t[2..];
    }
  }

  lemma SuffixIsSingleSpaced(t: Text, n: nat)
    requires SingleSpaced(t) && n <= |t|
    ensures SingleSpaced(t[n..])
  {
    forall i | 0 < i < |t[n..]| ensures !(IsSpace(t[n..][i - 1]) && IsSpace(t[n..][i])) {
      assert t[n..][i - 1] == t[n + i - 1] && t[n..][i] == t[n + i];
    }
  }

  lemma TidyIsItsWords(raw: Text)
    ensures Tidy(raw) == Join(Words(raw))
  {
    TidyIsTrimmed(raw);
    CollapseKeepsWords(raw);
    TrimStartKeepsWords(Collapse(raw));
    TrimEndKeepsWords(TrimStart(Collapse(raw)));
    TrimmedIsItsWords(Tidy(raw));
  }

  /** A message is the words of the error with one space between them, up to 280 units of that. */
  lemma MessageIsItsWords(raw: Text)
    ensures var line, message := Join(Words(raw)), SanitizeErrorMessage(raw);
            if line == [] then message == Ascii("unknown_error")
            else message == line[..if |line| > 280 then 280 else |line|]
  {
    TidyIsItsWords(raw);
  }

  lemma {:induction false} MaskedUnits(t: Text, i: nat)
    requires i < |t| && forall c | c in t :: c < 128
    ensures |LowerAndMask(t)| == |t|
    ensures var c := t[i];
            LowerAndMask(t)[i] == if 65 <= c <= 90 then c + 32
                                  else if 97 <= c <= 122 || 48 <= c <= 57 || c == 95 then c
                                  else 95
  {
    assert t[0] in t && forall c | c in t[1..] :: c in t;
    assert LowerAndMask(t) == MaskUnit(t[0]) + LowerAndMask(t[1..]) && |MaskUnit(t[0])| == 1;
    if i > 0 {
      MaskedUnits(t[1..], i - 1);
    } else if |t| > 1 {
      MaskedUnits(t[1..], 0);
    }
  }

  /** The first unit that is no space is in one place only. */
  lemma OneStart(t: Text, n: nat, start: nat)
    requires n <= |t| && start < |t| && !IsSpace(t[start]) && (n < |t| ==> !IsSpace(t[n]))
    requires (forall i | 0 <= i < n :: IsSpace(t[i])) && (forall i | 0 <= i < start :: IsSpace(t[i]))
    ensures n == start
  {
  }

  lemma OneEnd(t: Text, n: nat, end: nat)
    requires n <= |t| && 0 < end <= |t| && !IsSpace(t[end - 1]) && (n > 0 ==> !IsSpace(t[n - 1]))
    requires (forall i | n <= i < |t| :: IsSpace(t[i])) && (forall i | end <= i < |t| :: IsSpace(t[i]))
    ensures n == end
  {
  }

  /**
   A code in ASCII is its error code without the spaces around it, letters in lower case, and
   the rest underscores.
   */
  lemma CodeUnits(value: Text, start: nat, end: nat, i: nat)
    requires start < end <= |value| && (forall c | c in value :: c < 128)
    requires !IsSpace(value[start]) && !IsSpace(value[end - 1])
    requires (forall k | 0 <= k < start :: IsSpace(value[k])) && (forall k | end <= k < |value| :: IsSpace(value[k]))
    requires i < end - start && i < 64
    ensures var code, c := SanitizeErrorCode(value), value[start + i];
            && |code| == (if end - start > 64 then 64 else end - start)
            && code[i] == if 65 <= c <= 90 then c + 32
                          else if 97 <= c <= 122 || 48 <= c <= 57 || c == 95 then c
                          else 95
  {
    var n := TrimStartDrops(value);
    OneStart(value, n, start);
    var m := TrimEndDrops(value[start..]);
    OneEnd(value[start..], m, end - start);
    var trimmed := Trim(value);
    assert trimmed == value[start..][..m];
    assert forall c | c in trimmed :: c in value;
    MaskedUnits(trimmed, i);
  }
}
