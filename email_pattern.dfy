/**
 * The email-shape test of the waitlist endpoint: the regular expression
 * `^\S+@\S+\.\S+$` of ECMAScript, applied to a whole string.
 *
 * `Matches` runs the expression as a deterministic automaton read left to
 * right. `EmailShaped` is the independent characterisation by indices, and
 * `MatchesIffShaped` proves the two equal; `Composed`/`Decompose` tie both to
 * the pattern's own reading (three non-empty runs of non-space characters
 * joined by '@' and '.').
 */
module EmailPattern {

  /** `\s` of ECMAScript: the WhiteSpace and LineTerminator code points. */
  predicate IsWhitespace(c: char) {
    var n := c as int;
    n == 0x09 || n == 0x0A || n == 0x0B || n == 0x0C || n == 0x0D || n == 0x20 ||
    n == 0xA0 || n == 0x1680 || (0x2000 <= n <= 0x200A) || n == 0x2028 || n == 0x2029 ||
    n == 0x202F || n == 0x205F || n == 0x3000 || n == 0xFEFF
  }

  /** Every character matches `\S`. */
  predicate NoWhitespace(s: string) {
    forall k :: 0 <= k < |s| ==> !IsWhitespace(s[k])
  }

  /** An '@' with at least one character before it. */
  ghost predicate HasAt(s: string) {
    exists i :: 1 <= i < |s| && s[i] == '@'
  }

  /** Such an '@' with at least one character after it. */
  ghost predicate HasAtThenChar(s: string) {
    exists i :: 1 <= i && i + 1 < |s| && s[i] == '@'
  }

  /** Such an '@' followed, at least two positions later, by a '.'. */
  ghost predicate HasAtThenDot(s: string) {
    exists i, j :: 1 <= i && i + 2 <= j < |s| && s[i] == '@' && s[j] == '.'
  }

  /** Such an '@' and '.' where the '.' is not the last character either. */
  ghost predicate HasShape(s: string) {
    exists i, j :: 1 <= i && i + 2 <= j && j + 2 <= |s| && s[i] == '@' && s[j] == '.'
  }

  /** The exact set of strings the pattern accepts. */
  ghost predicate EmailShaped(s: string) {
    NoWhitespace(s) && HasShape(s)
  }

  /** How much of the pattern `\S+@\S+\.\S+` the input read so far covers. */
  datatype Phase =
    | Empty      // nothing read
    | Local      // `\S+`, no usable '@' yet
    | At         // `\S+@`
    | Domain     // `\S+@\S+`, no usable '.' yet
    | Dot        // `\S+@\S+\.`
    | Tld        // `\S+@\S+\.\S+`: the whole pattern
    | Rejected   // a whitespace character was read

  function Step(q: Phase, c: char): Phase {
    if IsWhitespace(c) then Rejected
    else match q
      case Empty => Local
      case Local => if c == '@' then At else Local
      case At => Domain
      case Domain => if c == '.' then Dot else Domain
      case Dot => Tld
      case Tld => Tld
      case Rejected => Rejected
  }

  /** The phase after reading `s` from left to right. */
  function Scan(s: string): Phase
    decreases |s|
  {
    if s == [] then Empty else Step(Scan(s[..|s| - 1]), s[|s| - 1])
  }

  /** What each phase means about the input read so far. */
  ghost function Expected(s: string): Phase {
    if !NoWhitespace(s) then Rejected
    else if HasShape(s) then Tld
    else if HasAtThenDot(s) then Dot
    else if HasAtThenChar(s) then Domain
    else if HasAt(s) then At
    else if |s| >= 1 then Local
    else Empty
  }

  lemma ExtendHasAt(s: string, c: char)
    ensures HasAt(s + [c]) <==> HasAt(s) || (|s| >= 1 && c == '@')
  {
    var t := s + [c];
    if HasAt(t) && !(|s| >= 1 && c == '@') {
      var i :| 1 <= i < |t| && t[i] == '@';
      assert i < |s| && s[i] == '@';
    }
    if HasAt(s) {
      var i :| 1 <= i < |s| && s[i] == '@';
      assert t[i] == '@';
    }
    if |s| >= 1 && c == '@' {
      assert t[|s|] == '@';
    }
  }

  lemma ExtendHasAtThenChar(s: string, c: char)
    ensures HasAtThenChar(s + [c]) <==> HasAt(s)
  {
    var t := s + [c];
    if HasAtThenChar(t) {
      var i :| 1 <= i && i + 1 < |t| && t[i] == '@';
      assert s[i] == '@';
    }
    if HasAt(s) {
      var i :| 1 <= i < |s| && s[i] == '@';
      assert t[i] == '@';
    }
  }

  lemma ExtendHasAtThenDot(s: string, c: char)
    ensures HasAtThenDot(s + [c]) <==> HasAtThenDot(s) || (c == '.' && HasAtThenChar(s))
  {
    var t := s + [c];
    if HasAtThenDot(t) && !HasAtThenDot(s) {
      var i, j :| 1 <= i && i + 2 <= j < |t| && t[i] == '@' && t[j] == '.';
      assert j == |s|;
      assert c == '.' && s[i] == '@';
    }
    if HasAtThenDot(s) {
      var i, j :| 1 <= i && i + 2 <= j < |s| && s[i] == '@' && s[j] == '.';
      assert t[i] == '@' && t[j] == '.';
    }
    if c == '.' && HasAtThenChar(s) {
      var i :| 1 <= i && i + 1 < |s| && s[i] == '@';
      assert t[i] == '@' && t[|s|] == '.';
    }
  }

  lemma ExtendHasShape(s: string, c: char)
    ensures HasShape(s + [c]) <==> HasAtThenDot(s)
  {
    var t := s + [c];
    if HasShape(t) {
      var i, j :| 1 <= i && i + 2 <= j && j + 2 <= |t| && t[i] == '@' && t[j] == '.';
      assert s[i] == '@' && s[j] == '.';
    }
    if HasAtThenDot(s) {
      var i, j :| 1 <= i && i + 2 <= j < |s| && s[i] == '@' && s[j] == '.';
      assert t[i] == '@' && t[j] == '.';
    }
  }

  lemma Weakenings(s: string)
    ensures HasShape(s) ==> HasAtThenDot(s)
    ensures HasAtThenDot(s) ==> HasAtThenChar(s)
    ensures HasAtThenChar(s) ==> HasAt(s)
  {
  }

  lemma ExtendNoWhitespace(s: string, c: char)
    ensures NoWhitespace(s + [c]) <==> NoWhitespace(s) && !IsWhitespace(c)
  {
    var t := s + [c];
    if NoWhitespace(t) {
      assert t[|s|] == c;
      forall k | 0 <= k < |s| ensures !IsWhitespace(s[k]) {
        assert t[k] == s[k];
      }
    }
  }

  /** The automaton's phase is exactly the meaning given by `Expected`. */
  lemma {:induction false} ScanClassifies(s: string)
    ensures Scan(s) == Expected(s)
    decreases |s|
  {
    if s != [] {
      var p, c := s[..|s| - 1], s[|s| - 1];
      assert s == p + [c];
      ScanClassifies(p);
      ExtendNoWhitespace(p, c);
      ExtendHasAt(p, c);
      ExtendHasAtThenChar(p, c);
      ExtendHasAtThenDot(p, c);
      ExtendHasShape(p, c);
      Weakenings(p);
    }
  }

  /** `/^\S+@\S+\.\S+$/.test(s)` */
  function Matches(s: string): (r: bool)
    ensures r <==> EmailShaped(s)
  {
    ScanClassifies(s);
    Scan(s) == Tld
  }

  /** Anything of the pattern's form is accepted. */
  lemma Composed(local: string, domain: string, tld: string)
    requires |local| >= 1 && |domain| >= 1 && |tld| >= 1
    requires NoWhitespace(local) && NoWhitespace(domain) && NoWhitespace(tld)
    ensures Matches(local + "@" + domain + "." + tld)
  {
    var s := local + "@" + domain + "." + tld;
    var i, j := |local|, |local| + 1 + |domain|;
    assert s[i] == '@' && s[j] == '.';
    forall k | 0 <= k < |s| ensures !IsWhitespace(s[k]) {
      if k < i {
        assert s[k] == local[k];
      } else if i < k < j {
        assert s[k] == domain[k - i - 1];
      } else if j < k {
        assert s[k] == tld[k - j - 1];
      }
    }
    assert HasShape(s);
  }

  /** Everything accepted is of the pattern's form. */
  lemma Decompose(s: string) returns (local: string, domain: string, tld: string)
    requires Matches(s)
    ensures s == local + "@" + domain + "." + tld
    ensures |local| >= 1 && |domain| >= 1 && |tld| >= 1
    ensures NoWhitespace(local) && NoWhitespace(domain) && NoWhitespace(tld)
  {
    var i, j :| 1 <= i && i + 2 <= j && j + 2 <= |s| && s[i] == '@' && s[j] == '.';
    local, domain, tld := s[..i], s[i + 1..j], s[j + 1..];
    assert s == local + "@" + domain + "." + tld;
  }

  /** An accepted email has at least five characters and a '.' after an '@'. */
  lemma AcceptedIsLongEnough(s: string)
    requires Matches(s)
    ensures |s| >= 5
    ensures exists i, j :: 0 <= i < j < |s| && s[i] == '@' && s[j] == '.'
  {
  }

  /** No '@' at all: rejected. */
  lemma RejectsWithoutAt(s: string)
    requires forall k :: 0 <= k < |s| ==> s[k] != '@'
    ensures !Matches(s)
  {
  }

  /** No '.' anywhere after an '@': rejected. */
  lemma RejectsWithoutDotAfterAt(s: string)
    requires forall i, j :: 0 <= i < j < |s| && s[i] == '@' ==> s[j] != '.'
    ensures !Matches(s)
  {
  }

  /** A whitespace character anywhere: rejected. */
  lemma RejectsWhitespace(s: string, k: nat)
    requires k < |s| && IsWhitespace(s[k])
    ensures !Matches(s)
  {
  }

  /** Space, tab, carriage return and line feed are whitespace to `\S`. */
  lemma AsciiWhitespace()
    ensures IsWhitespace(' ') && IsWhitespace('\t') && IsWhitespace('\r') && IsWhitespace('\n')
  {
  }
}
