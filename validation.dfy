/**
  Input validation of the to-do list (validateTaskInput in script.js).

  The raw input is trimmed the way String.prototype.trim does it, and three
  rules are then tried in order; the first one that fails decides the message:
    1. the trimmed text is empty;
    2. the trimmed text starts with an ASCII digit (the regular expression ^\d);
    3. the trimmed text is shorter than 5 (JavaScript length, in UTF-16 code units).
 */
module Validation {

  /** The verdict object { isValid, message } the validator returns. */
  datatype Verdict = Verdict(isValid: bool, message: string)

  const EmptyMessage: string := "Task cannot be empty. Please enter a task."
  const DigitMessage: string := "Task cannot start with a number. Please modify your input."
  const ShortMessage: string := "Task must be at least 5 characters long. Please add more details."

  /** The minimum length of a task text, in UTF-16 code units. */
  const MinLength: nat := 5

  // ---------------------------------------------------------------------------
  // Characters

  /** The characters trim() removes: ECMAScript WhiteSpace and LineTerminator. */
  predicate IsWhitespace(c: char) {
    || c == '\t' || c == '\n' || c == '\U{000B}' || c == '\U{000C}' || c == '\r'
    || c == ' ' || c == '\U{00A0}' || c == '\U{1680}'
    || ('\U{2000}' <= c <= '\U{200A}')
    || c == '\U{2028}' || c == '\U{2029}' || c == '\U{202F}' || c == '\U{205F}'
    || c == '\U{3000}' || c == '\U{FEFF}'
  }

  /** What \d matches in a regular expression without the u flag. */
  predicate IsDigit(c: char) {
    '0' <= c <= '9'
  }

  ghost predicate AllWhitespace(s: string) {
    forall i :: 0 <= i < |s| ==> IsWhitespace(s[i])
  }

  /** A string trim() leaves alone: empty, or no whitespace at either end. */
  ghost predicate IsTrimmed(s: string) {
    s == [] || (!IsWhitespace(s[0]) && !IsWhitespace(s[|s| - 1]))
  }

  // ---------------------------------------------------------------------------
  // Trimming

  /** The number of whitespace characters at the front of s. */
  function LeadingSpace(s: string): (k: nat)
    ensures k <= |s|
    ensures forall i :: 0 <= i < k ==> IsWhitespace(s[i])
    ensures k < |s| ==> !IsWhitespace(s[k])
  {
    if s == [] || !IsWhitespace(s[0]) then 0 else 1 + LeadingSpace(s[1..])
  }

  /** The number of whitespace characters at the back of s. */
  function TrailingSpace(s: string): (k: nat)
    ensures k <= |s|
    ensures forall i :: |s| - k <= i < |s| ==> IsWhitespace(s[i])
    ensures k < |s| ==> !IsWhitespace(s[|s| - 1 - k])
  {
    if s == [] || !IsWhitespace(s[|s| - 1]) then 0 else 1 + TrailingSpace(s[..|s| - 1])
  }

  /** Any n with whitespace before it and none at it is the leading-space count. */
  lemma LeadingSpaceIs(s: string, n: nat)
    requires n <= |s|
    requires forall i :: 0 <= i < n ==> IsWhitespace(s[i])
    requires n < |s| ==> !IsWhitespace(s[n])
    ensures LeadingSpace(s) == n
  {
    var k := LeadingSpace(s);
    assert k < |s| ==> !IsWhitespace(s[k]);
  }

  /** Any n with whitespace after it and none just before it is the trailing-space count. */
  lemma TrailingSpaceIs(s: string, n: nat)
    requires n <= |s|
    requires forall i :: |s| - n <= i < |s| ==> IsWhitespace(s[i])
    requires n < |s| ==> !IsWhitespace(s[|s| - 1 - n])
    ensures TrailingSpace(s) == n
  {
    var k := TrailingSpace(s);
    assert k < |s| ==> !IsWhitespace(s[|s| - 1 - k]);
  }

  /** String.prototype.trim: leading whitespace is dropped, then trailing whitespace. */
  function Trim(s: string): (r: string)
    ensures IsTrimmed(r)
    ensures r == [] <==> AllWhitespace(s)
    ensures LeadingSpace(s) + |r| <= |s|
    ensures r == s[LeadingSpace(s)..LeadingSpace(s) + |r|]
    ensures AllWhitespace(s[LeadingSpace(s) + |r|..])
  {
    var k := LeadingSpace(s);
    var t := s[k..];
    var j := TrailingSpace(t);
    var r := t[..|t| - j];
    assert k < |s| ==> !IsWhitespace(s[k]) && t[0] == s[k];
    assert AllWhitespace(s[k + |r|..]) by {
      var tail := s[k + |r|..];
      forall i | 0 <= i < |tail| ensures IsWhitespace(tail[i]) {
        assert tail[i] == t[|t| - j + i];
      }
    }
    r
  }

  /**
    trim() is characterised by its result alone: whatever whitespace surrounds
    a trimmed string, trimming gives that string back.
   */
  lemma {:induction false} TrimUnique(p: string, t: string, q: string)
    requires AllWhitespace(p) && AllWhitespace(q) && IsTrimmed(t)
    ensures Trim(p + t + q) == t
  {
    var s := p + t + q;
    if t == [] {
      assert s == p + q;
      WhitespaceConcat(p, q);
    } else {
      assert forall i :: 0 <= i < |p| ==> s[i] == p[i];
      assert s[|p|] == t[0];
      LeadingSpaceIs(s, |p|);
      var u := s[|p|..];
      assert u == t + q;
      assert forall i :: |u| - |q| <= i < |u| ==> u[i] == q[i - |t|];
      assert u[|u| - 1 - |q|] == t[|t| - 1];
      TrailingSpaceIs(u, |q|);
      assert u[..|u| - |q|] == t;
    }
  }

  lemma WhitespaceConcat(a: string, b: string)
    requires AllWhitespace(a) && AllWhitespace(b)
    ensures AllWhitespace(a + b)
  {
    forall i | 0 <= i < |a + b| ensures IsWhitespace((a + b)[i]) {
      if i >= |a| { assert (a + b)[i] == b[i - |a|]; }
    }
  }

  /** Trimming twice is trimming once. */
  lemma TrimIdempotent(s: string)
    ensures Trim(Trim(s)) == Trim(s)
  {
    TrimUnique([], Trim(s), []);
    assert [] + Trim(s) + [] == Trim(s);
  }

  lemma Regroup(a: string, b: string, c: string, d: string, e: string)
    ensures a + (b + c + d) + e == (a + b) + c + (d + e)
  {
  }

  /** Whitespace added around an input does not change what trim() gives. */
  lemma TrimIgnoresPadding(p: string, s: string, q: string)
    requires AllWhitespace(p) && AllWhitespace(q)
    ensures Trim(p + s + q) == Trim(s)
  {
    var front, back := TrimSplit(s);
    var t := Trim(s);
    Regroup(p, front, t, back, q);
    WhitespaceConcat(p, front);
    WhitespaceConcat(back, q);
    TrimUnique(p + front, t, back + q);
  }

  /** Every string is its trimmed text with whitespace on either side. */
  lemma TrimSplit(s: string) returns (front: string, back: string)
    ensures s == front + Trim(s) + back
    ensures AllWhitespace(front) && AllWhitespace(back)
  {
    var k := LeadingSpace(s);
    var t := Trim(s);
    front, back := s[..k], s[k + |t|..];
    assert AllWhitespace(front) by {
      forall i | 0 <= i < |front| ensures IsWhitespace(front[i]) { assert front[i] == s[i]; }
    }
    ThreeParts(s, k, k + |t|);
  }

  lemma ThreeParts(s: string, i: nat, j: nat)
    requires i <= j <= |s|
    ensures s == s[..i] + s[i..j] + s[j..]
  {
  }

  // ---------------------------------------------------------------------------
  // Length

  /** JavaScript's string length: characters outside the Basic Multilingual Plane take two code units. */
  function Utf16Length(s: string): (n: nat)
    ensures |s| <= n <= 2 * |s|
  {
    if s == [] then 0
    else (if s[0] as int > 0xFFFF then 2 else 1) + Utf16Length(s[1..])
  }

  /** A string of at least five characters is never too short, whatever they are. */
  lemma LongEnoughByCharacters(s: string)
    requires |s| >= MinLength
    ensures Utf16Length(s) >= MinLength
  {
  }

  // ---------------------------------------------------------------------------
  // The validator

  /** The conditions under which the validator accepts an input, stated together. */
  ghost predicate Acceptable(input: string) {
    var t := Trim(input);
    t != [] && !IsDigit(t[0]) && Utf16Length(t) >= MinLength
  }

  /** validateTaskInput: the first failing rule on the trimmed input wins. */
  function ValidateTaskInput(input: string): (r: Verdict)
    ensures r.isValid <==> Acceptable(input)
    ensures r.isValid <==> r.message == ""
    ensures r.message == EmptyMessage <==> AllWhitespace(input)
    ensures r.message == DigitMessage <==> !AllWhitespace(input) && IsDigit(Trim(input)[0])
    ensures r.message == ShortMessage <==>
      !AllWhitespace(input) && !IsDigit(Trim(input)[0]) && Utf16Length(Trim(input)) < MinLength
  {
    assert |EmptyMessage| != |DigitMessage| && |EmptyMessage| != |ShortMessage|;
    assert |DigitMessage| != |ShortMessage|;
    var t := Trim(input);
    if t == [] then Verdict(false, EmptyMessage)
    else if IsDigit(t[0]) then Verdict(false, DigitMessage)
    else if Utf16Length(t) < MinLength then Verdict(false, ShortMessage)
    else Verdict(true, "")
  }

  /** Validating the trimmed text gives the same verdict as validating the raw input. */
  lemma ValidateTrimmed(input: string)
    ensures ValidateTaskInput(Trim(input)) == ValidateTaskInput(input)
  {
    TrimIdempotent(input);
  }

  /** Whitespace around an input never changes the verdict. */
  lemma ValidateIgnoresPadding(p: string, input: string, q: string)
    requires AllWhitespace(p) && AllWhitespace(q)
    ensures ValidateTaskInput(p + input + q) == ValidateTaskInput(input)
  {
    TrimIgnoresPadding(p, input, q);
  }

  /** The empty check comes first: blank input is reported empty, never anything else. */
  lemma BlankIsEmpty(input: string)
    requires AllWhitespace(input)
    ensures ValidateTaskInput(input) == Verdict(false, EmptyMessage)
  {
  }

  /** The digit check comes before the length check: "12" is rejected for its digit. */
  lemma DigitBeatsLength(p: string, q: string)
    requires AllWhitespace(p) && AllWhitespace(q)
    ensures ValidateTaskInput(p + "12" + q) == Verdict(false, DigitMessage)
  {
    ValidateIgnoresPadding(p, "12", q);
    assert Trim("12") == "12" by { TrimUnique([], "12", []); assert [] + "12" + [] == "12"; }
  }

  /** The empty input is reported empty. */
  lemma EmptySample()
    ensures ValidateTaskInput("") == Verdict(false, EmptyMessage)
  {
  }

  /** "123abc" is rejected for its leading digit. */
  lemma DigitSample()
    ensures ValidateTaskInput("123abc") == Verdict(false, DigitMessage)
  {
    TrimUnique([], "123abc", []);
    assert [] + "123abc" + [] == "123abc";
  }

  /** "ab" is rejected as too short. */
  lemma ShortSample()
    ensures ValidateTaskInput("ab") == Verdict(false, ShortMessage)
  {
    TrimUnique([], "ab", []);
    assert [] + "ab" + [] == "ab";
  }

  /** "Buy milk", with any whitespace around it, is accepted, and its trimmed text is "Buy milk". */
  lemma SampleAcceptance(p: string, q: string)
    requires AllWhitespace(p) && AllWhitespace(q)
    ensures Trim(p + "Buy milk" + q) == "Buy milk"
    ensures ValidateTaskInput(p + "Buy milk" + q) == Verdict(true, "")
  {
    var t := "Buy milk";
    assert IsTrimmed(t);
    TrimUnique(p, t, q);
    assert Utf16Length(t) >= MinLength by {
      LongEnoughByCharacters(t);
    }
  }
}
