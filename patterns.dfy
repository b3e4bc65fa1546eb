/** The two regular expressions of the scenario checks, as predicates on the
    string they are tested against. `[^\s@]` and the classes used here never
    match half of a surrogate pair differently from the whole character, so
    matching on characters gives the same answer as JavaScript's matching on
    UTF-16 code units. */
module Patterns {
  import opened JsText

  /** `[^\s@]` */
  predicate EmailChar(c: char) {
    !IsWhitespace(c) && c != '@'
  }

  predicate AllEmailChars(s: string) {
    forall i :: 0 <= i < |s| ==> EmailChar(s[i])
  }

  /** `s` read as `[^\s@]+` up to `at`, `@`, `[^\s@]+` up to `dot`, `\.`,
      `[^\s@]+` to the end. */
  predicate EmailSplit(s: string, at: nat, dot: nat) {
    0 < at && at + 1 < dot && dot + 1 < |s| && s[at] == '@' && s[dot] == '.' &&
    AllEmailChars(s[..at]) && AllEmailChars(s[at + 1..dot]) && AllEmailChars(s[dot + 1..])
  }

  /** `/^[^\s@]+@[^\s@]+\.[^\s@]+$/.test(s)` */
  predicate EmailPattern(s: string) {
    exists at: nat, dot: nat :: at < |s| && dot < |s| && EmailSplit(s, at, dot)
  }

  predicate IsAtSign(s: string, i: int) {
    0 <= i < |s| && s[i] == '@'
  }

  /** The pattern accepts exactly the strings without white space that hold
      one `@`, with text before it, and after it a `.` that neither follows
      the `@` directly nor ends the string. */
  lemma EmailPatternCharacterization(s: string)
    ensures EmailPattern(s) <==>
      (forall i :: 0 <= i < |s| ==> !IsWhitespace(s[i])) &&
      exists at: nat :: 0 < at && IsAtSign(s, at) &&
        (forall i :: IsAtSign(s, i) ==> i == at) &&
        exists dot: nat :: at + 1 < dot < |s| - 1 && s[dot] == '.'
  {
    if EmailPattern(s) {
      var at: nat, dot: nat :| at < |s| && dot < |s| && EmailSplit(s, at, dot);
      forall i | 0 <= i < |s| ensures !IsWhitespace(s[i]) && (s[i] == '@' ==> i == at) {
        if i < at {
          assert s[..at][i] == s[i];
        } else if at < i < dot {
          assert s[at + 1..dot][i - at - 1] == s[i];
        } else if dot < i {
          assert s[dot + 1..][i - dot - 1] == s[i];
        }
      }
      assert IsAtSign(s, at);
    }
    if (forall i :: 0 <= i < |s| ==> !IsWhitespace(s[i])) &&
       exists at: nat :: 0 < at && IsAtSign(s, at) &&
         (forall i :: IsAtSign(s, i) ==> i == at) &&
         exists dot: nat :: at + 1 < dot < |s| - 1 && s[dot] == '.'
    {
      var at: nat :| 0 < at && IsAtSign(s, at) && (forall i :: IsAtSign(s, i) ==> i == at) &&
        exists dot: nat :: at + 1 < dot < |s| - 1 && s[dot] == '.';
      var dot: nat :| at + 1 < dot < |s| - 1 && s[dot] == '.';
      assert AllEmailChars(s[..at]) by {
        forall i | 0 <= i < at ensures EmailChar(s[..at][i]) {
          assert s[..at][i] == s[i] && !IsAtSign(s, i);
        }
      }
      var domain, top := s[at + 1..dot], s[dot + 1..];
      assert AllEmailChars(domain) by {
        forall i | 0 <= i < |domain| ensures EmailChar(domain[i]) {
          assert domain[i] == s[at + 1 + i] && !IsAtSign(s, at + 1 + i);
        }
      }
      assert AllEmailChars(top) by {
        forall i | 0 <= i < |top| ensures EmailChar(top[i]) {
          assert top[i] == s[dot + 1 + i] && !IsAtSign(s, dot + 1 + i);
        }
      }
      assert EmailSplit(s, at, dot);
    }
  }

  /** `[A-Za-z0-9\/\-_]` */
  predicate InvoiceNumberChar(c: char) {
    'A' <= c <= 'Z' || 'a' <= c <= 'z' || '0' <= c <= '9' || c == '/' || c == '-' || c == '_'
  }

  /** The first `n` characters are all in the class. */
  predicate ClassPrefix(s: string, n: nat) {
    n <= |s| && forall i :: 0 <= i < n ==> InvoiceNumberChar(s[i])
  }

  /** `/^[A-Za-z0-9\/\-_]+/.test(s)`: anchored at the start only, so some
      non-empty prefix must consist of class characters. */
  predicate InvoiceNumberPattern(s: string) {
    exists n: nat :: 1 <= n <= |s| && ClassPrefix(s, n)
  }

  /** Since the end is not anchored, only the first character decides. */
  lemma InvoiceNumberPatternFirstChar(s: string)
    ensures InvoiceNumberPattern(s) <==> |s| >= 1 && InvoiceNumberChar(s[0])
  {
    if |s| >= 1 && InvoiceNumberChar(s[0]) {
      assert ClassPrefix(s, 1);
    }
  }
}
