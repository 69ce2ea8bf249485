/** Text as the validators see it: byte lengths, components, prefixes. */
module Text {
  /** Length of the UTF-8 encoding, section 3 of RFC 3629. */
  function ByteLength(s: string): nat {
    if s == "" then 0
    else
      (if s[0] < '\U{80}' then 1 else if s[0] < '\U{800}' then 2 else if s[0] < '\U{10000}' then 3 else 4)
      + ByteLength(s[1..])
  }

  predicate IsWhitespace(c: char) {
    '\t' <= c <= '\r' || c in {' ', '\U{85}', '\U{A0}', '\U{1680}', '\U{2028}', '\U{2029}', '\U{202F}', '\U{205F}',
                               '\U{3000}'}
    || '\U{2000}' <= c <= '\U{200A}'
  }

  /** `s.trim().is_empty()` */
  predicate Blank(s: string) {
    forall i :: 0 <= i < |s| ==> IsWhitespace(s[i])
  }

  predicate IsControl(c: char) {
    c <= '\U{1F}' || '\U{7F}' <= c <= '\U{9F}'
  }

  predicate IsLower(c: char) {
    'a' <= c <= 'z'
  }

  predicate IsDigit(c: char) {
    '0' <= c <= '9'
  }

  predicate IsAlphanumeric(c: char) {
    IsLower(c) || 'A' <= c <= 'Z' || IsDigit(c)
  }

  predicate ValidHex(s: string, length: nat) {
    |s| == length && forall i :: 0 <= i < |s| ==> IsDigit(s[i]) || 'a' <= s[i] <= 'f'
  }

  predicate StartsWith(s: string, prefix: string) {
    |prefix| <= |s| && s[..|prefix|] == prefix
  }

  /** The components of `s` between separators. */
  function Split(s: string, separator: char): (parts: seq<string>)
    ensures |parts| > 0
  {
    if s == "" then [""]
    else if s[0] == separator then [""] + Split(s[1..], separator)
    else
      var rest := Split(s[1..], separator);
      [[s[0]] + rest[0]] + rest[1..]
  }

  /** The order of strings as sequences of code points, which is the order of their UTF-8 bytes. */
  predicate Less(a: string, b: string) {
    b != "" && (a == "" || a[0] < b[0] || (a[0] == b[0] && Less(a[1..], b[1..])))
  }

  lemma {:induction false} LessTotal(a: string, b: string)
    ensures Less(a, b) || a == b || Less(b, a)
    ensures !(Less(a, b) && Less(b, a))
    decreases |a| + |b|
  {
    if a != "" && b != "" && a[0] == b[0] {
      LessTotal(a[1..], b[1..]);
      assert a == [a[0]] + a[1..] && b == [b[0]] + b[1..];
    }
  }

  lemma {:induction false} LessTransitive(a: string, b: string, c: string)
    requires Less(a, b) && Less(b, c)
    ensures Less(a, c)
    decreases |a|
  {
    if a != "" && a[0] == b[0] && b[0] == c[0] {
      LessTransitive(a[1..], b[1..], c[1..]);
    }
  }

  /** The first key of an ordered map. */
  method LeastOf(paths: set<string>) returns (least: string)
    requires paths != {}
    ensures least in paths && forall p :: p in paths && p != least ==> Less(least, p)
  {
    hide Less;
    least :| least in paths;
    var todo := paths - {least};
    while todo != {}
      invariant todo <= paths && least in paths && least !in todo
      invariant forall p :: p in paths && p !in todo && p != least ==> Less(least, p)
      decreases |todo|
    {
      var p :| p in todo;
      LessTotal(p, least);
      if Less(p, least) {
        forall q | q in paths && q !in todo && q != least
          ensures Less(p, q)
        {
          LessTransitive(p, least, q);
        }
        least := p;
      }
      todo := todo - {p};
    }
  }
}
