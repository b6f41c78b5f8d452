/** The canonical hostnames the edge accepts: dotted lower-case DNS labels. */
module EdgeHostname {
  predicate Alphanumeric(c: char) {
    'a' <= c <= 'z' || '0' <= c <= '9'
  }

  /** One label: 1 to 63 characters, alphanumeric at both ends, hyphens only inside. */
  predicate Label(s: string) {
    && 1 <= |s| <= 63
    && Alphanumeric(s[0])
    && Alphanumeric(s[|s| - 1])
    && forall i :: 0 <= i < |s| ==> Alphanumeric(s[i]) || s[i] == '-'
  }

  /** s is one or more labels separated by dots; i scans for the end of the first one. */
  predicate Labels(s: string, i: nat)
    requires i <= |s|
    decreases |s|, |s| - i
  {
    if i == |s| then Label(s)
    else if s[i] == '.' then Label(s[..i]) && Labels(s[i + 1..], 0)
    else Labels(s, i + 1)
  }

  /** 1 to 253 characters and at least two labels. */
  predicate Valid(h: string) {
    1 <= |h| <= 253 && '.' in h && Labels(h, 0)
  }
}
