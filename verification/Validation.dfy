/** Configuration checks: pkg/config/validation.go. */
module Validation {
  import opened Text

  predicate Lower(c: char) { 'a' <= c <= 'z' }
  predicate Digit(c: char) { '0' <= c <= '9' }

  /** A label as in section 2.3.1 of RFC 1035, in lower case: at most 63 characters, a letter first,
      a letter or digit last, letters, digits and hyphens between. */
  predicate IsDns1035Label(s: string) {
    && 1 <= |s| <= 63
    && Lower(s[0])
    && (Lower(s[|s| - 1]) || Digit(s[|s| - 1]))
    && forall i :: 0 <= i < |s| ==> Lower(s[i]) || Digit(s[i]) || s[i] == '-'
  }

  /** validatePlatformFormat accepts. */
  predicate ValidPlatformFormat(platform: string) {
    || platform == "local"
    || platform == "localhost"
    || platform == "linux/x86_64"
    || (var parts := Split(platform, '/');
        |parts| == 2 && IsDns1035Label(parts[0]) && IsDns1035Label(parts[1]))
  }

  /** Besides the exceptions, a platform is two labels around one slash. */
  lemma FormatIff(a: string, b: string)
    requires '/' !in a
    ensures ValidPlatformFormat(a) <==> a == "local" || a == "localhost"
    ensures ValidPlatformFormat(a + "/" + b) <==>
      a + "/" + b == "linux/x86_64" || (IsDns1035Label(a) && IsDns1035Label(b))
  {
    SplitAt(a, b, '/');
    SplitOne(a, '/');
    SplitOne(b, '/');
    assert a + "/" + b == a + ['/'] + b;
    assert (a + "/" + b)[|a|] == '/';
    assert '/' !in "local" && '/' !in "localhost";
    LabelHasNoSlash(b);
    assert "linux/x86_64"[5] == '/';
    hide Split;
  }

  lemma LabelHasNoSlash(s: string)
    ensures IsDns1035Label(s) ==> '/' !in s && ',' !in s && s != ""
  {
  }
}
