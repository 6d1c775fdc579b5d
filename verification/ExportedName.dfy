/** The global name a browser bundle is exported under (index.js line 43):
    the project name with every hyphen that is followed by a non-space
    character removed and that character upper-cased, matches taken left to
    right without overlapping, as `replace(/-(\S)/g, ...)` does. */
module ExportedName {

  /** The characters JavaScript's `\s` matches. */
  predicate IsSpace(c: char)
  {
    || c == ' ' || c == '\t' || c == '\n' || c == '\r' || c == '\U{0B}' || c == '\U{0C}'
    || c == '\U{A0}' || c == '\U{1680}' || ('\U{2000}' <= c <= '\U{200A}')
    || c == '\U{2028}' || c == '\U{2029}' || c == '\U{202F}' || c == '\U{205F}'
    || c == '\U{3000}' || c == '\U{FEFF}'
  }

  /** `toUpperCase` on the ASCII letters; every other character is kept. */
  function Upper(c: char): (u: char)
    ensures 'a' <= c <= 'z' ==> 'A' <= u <= 'Z' && u as int == c as int - 32
    ensures !('a' <= c <= 'z') ==> u == c
  {
    if 'a' <= c <= 'z' then (c as int - 32) as char else c
  }

  /** Whether the pattern `-(\S)` matches at position `i` of `s`. */
  predicate MatchAt(s: string, i: int)
  {
    0 <= i < |s| - 1 && s[i] == '-' && !IsSpace(s[i + 1])
  }

  /** `name.replace(/-(\S)/g, ($0, $1) => $1.toUpperCase())` */
  function CamelCase(s: string): string
    decreases |s|
  {
    if s == [] then []
    else if MatchAt(s, 0) then [Upper(s[1])] + CamelCase(s[2..])
    else [s[0]] + CamelCase(s[1..])
  }

  /** Nothing to replace: every hyphen is last or followed by white space. */
  predicate NoMatch(s: string)
  {
    forall i :: 0 <= i < |s| ==> !MatchAt(s, i)
  }

  lemma NoMatchTail(s: string, n: nat)
    requires NoMatch(s) && n <= |s|
    ensures NoMatch(s[n..])
  {
    forall i | 0 <= i < |s[n..]| ensures !MatchAt(s[n..], i) {
      assert !MatchAt(s, i + n);
    }
  }

  /** Each match shortens the name by one character, so the name is never
      longer and is exactly as long only when nothing matched. */
  lemma {:induction false} Shortens(s: string)
    ensures |CamelCase(s)| <= |s|
    ensures |CamelCase(s)| == |s| <==> NoMatch(s)
    decreases |s|
  {
    if s != [] {
      if MatchAt(s, 0) {
        Shortens(s[2..]);
      } else {
        Shortens(s[1..]);
        if NoMatch(s[1..]) {
          forall i | 0 <= i < |s| ensures !MatchAt(s, i) {
            if i > 0 { assert !MatchAt(s[1..], i - 1); }
          }
        } else {
          var i :| 0 <= i < |s[1..]| && MatchAt(s[1..], i);
          assert MatchAt(s, i + 1);
        }
      }
    }
  }

  /** A name with nothing to replace is exported as it is, and only such a
      name is. */
  lemma {:induction false} UnchangedIffNoMatch(s: string)
    ensures CamelCase(s) == s <==> NoMatch(s)
    decreases |s|
  {
    Shortens(s);
    if s != [] && NoMatch(s) {
      assert !MatchAt(s, 0);
      NoMatchTail(s, 1);
      UnchangedIffNoMatch(s[1..]);
    }
  }

  /** A name without hyphens is its own exported name. */
  lemma NoHyphenUnchanged(s: string)
    requires '-' !in s
    ensures CamelCase(s) == s
  {
    assert NoMatch(s) by {
      forall i | 0 <= i < |s| ensures !MatchAt(s, i) {
        assert s[i] in s;
      }
    }
    UnchangedIffNoMatch(s);
  }

  /** A hyphen-free prefix is copied unchanged. */
  lemma {:induction false} PlainPrefix(a: string, b: string)
    requires '-' !in a
    ensures CamelCase(a + b) == a + CamelCase(b)
    decreases |a|
  {
    if a != [] {
      assert (a + b)[0] == a[0] && (a + b)[1..] == a[1..] + b;
      assert a[0] in a;
      assert '-' !in a[1..] by {
        forall c | c in a[1..] ensures c != '-' {
          assert c in a;
        }
      }
      PlainPrefix(a[1..], b);
      assert !MatchAt(a + b, 0);
      calc {
        CamelCase(a + b);
        [a[0]] + CamelCase(a[1..] + b);
        [a[0]] + (a[1..] + CamelCase(b));
        { assert a == [a[0]] + a[1..]; }
        a + CamelCase(b);
      }
    } else {
      assert a + b == b;
    }
  }

  /** Joining words with hyphens yields camel case: `my-module` becomes
      `myModule`. */
  lemma HyphenJoin(a: string, b: string)
    requires '-' !in a && b != [] && !IsSpace(b[0])
    ensures CamelCase(a + "-" + b) == a + [Upper(b[0])] + CamelCase(b[1..])
  {
    var t := "-" + b;
    assert a + "-" + b == a + t;
    PlainPrefix(a, t);
    assert MatchAt(t, 0) && t[1] == b[0] && t[2..] == b[1..];
  }

  /** A trailing hyphen has nothing after it to upper-case, so the exported
      name still ends with one. */
  lemma {:induction false} TrailingHyphenKept(s: string)
    requires |s| > 0 && s[|s| - 1] == '-'
    ensures |CamelCase(s)| > 0 && CamelCase(s)[|CamelCase(s)| - 1] == '-'
    decreases |s|
  {
    if |s| == 1 {
      assert !MatchAt(s, 0);
    } else if MatchAt(s, 0) {
      if |s| == 2 {
        assert s[1] == '-' && Upper(s[1]) == '-';
      } else {
        TrailingHyphenKept(s[2..]);
      }
    } else {
      TrailingHyphenKept(s[1..]);
    }
  }
}
