/** The string operations of the JavaScript runtime that the complaint and
    forum code calls: `trim`, `startsWith`, the `\s` character class and
    `split('.').pop()`. Characters are Unicode scalar values. */
module Text {

  /** A line terminator of ECMAScript (LF, CR, LINE SEPARATOR, PARAGRAPH SEPARATOR). */
  predicate IsLineTerminator(c: char)
  {
    c == '\n' || c == '\r' || c == '\U{2028}' || c == '\U{2029}'
  }

  /** ECMAScript white space or a line terminator: what `trim` removes and
      what the regular-expression class `\s` matches. */
  predicate IsSpace(c: char)
  {
    || c == '\t' || c == '\U{000B}' || c == '\U{000C}' || c == ' '
    || c == '\U{00A0}' || c == '\U{FEFF}' || c == '\U{1680}'
    || ('\U{2000}' <= c <= '\U{200A}')
    || c == '\U{202F}' || c == '\U{205F}' || c == '\U{3000}'
    || IsLineTerminator(c)
  }

  function TrimStart(s: string): string
  {
    if s != [] && IsSpace(s[0]) then TrimStart(s[1..]) else s
  }

  function TrimEnd(s: string): string
  {
    if s != [] && IsSpace(s[|s| - 1]) then TrimEnd(s[..|s| - 1]) else s
  }

  /** `s.trim()`. */
  function Trim(s: string): string
  {
    TrimEnd(TrimStart(s))
  }

  /** A string trims to nothing exactly when every character of it is space. */
  lemma {:induction false} TrimEmpty(s: string)
    ensures Trim(s) == [] <==> forall i :: 0 <= i < |s| ==> IsSpace(s[i])
  {
    TrimStartSpec(s);
    TrimEndEmpty(TrimStart(s));
  }

  lemma {:induction false} TrimStartSpec(s: string)
    ensures var t := TrimStart(s);
      |t| <= |s| && t == s[|s| - |t|..] &&
      (forall i :: 0 <= i < |s| - |t| ==> IsSpace(s[i])) &&
      (t != [] ==> !IsSpace(t[0]))
  {
    if s != [] && IsSpace(s[0]) {
      TrimStartSpec(s[1..]);
      var t := TrimStart(s[1..]);
      forall i | 0 <= i < |s| - |t| ensures IsSpace(s[i]) {
        if i > 0 { assert s[i] == s[1..][i - 1]; }
      }
    }
  }

  lemma {:induction false} TrimEndEmpty(s: string)
    requires s == [] || !IsSpace(s[0])
    ensures TrimEnd(s) == [] <==> s == []
  {
    if s != [] && IsSpace(s[|s| - 1]) {
      assert |s| > 1;
      TrimEndEmpty(s[..|s| - 1]);
    }
  }

  /** `s.startsWith(prefix)`. */
  predicate StartsWith(s: string, prefix: string)
  {
    prefix <= s
  }

  /** `name.split('.').pop()`: the text after the last '.', or the whole name
      when it has no '.'. */
  function FileExt(name: string): string
  {
    if name == [] then []
    else if name[|name| - 1] == '.' then []
    else FileExt(name[..|name| - 1]) + [name[|name| - 1]]
  }

  /** The extension is a dot-free suffix of the name, preceded in the name by
      the last '.' when there is one. */
  lemma {:induction false} FileExtSpec(name: string)
    ensures |FileExt(name)| <= |name|
    ensures FileExt(name) == name[|name| - |FileExt(name)|..]
    ensures '.' !in FileExt(name)
    ensures '.' in name ==> |FileExt(name)| < |name| && name[|name| - |FileExt(name)| - 1] == '.'
    ensures '.' !in name ==> FileExt(name) == name
  {
    if name != [] && name[|name| - 1] != '.' {
      var init := name[..|name| - 1];
      FileExtSpec(init);
      assert name == init + [name[|name| - 1]];
      assert '.' in name <==> '.' in init;
    }
  }

  /** A name built as `<base>.<ext>` with a dot-free `ext` has extension `ext`. */
  lemma {:induction false} FileExtAfterDot(base: string, ext: string)
    requires '.' !in ext
    ensures FileExt(base + "." + ext) == ext
  {
    if ext != [] {
      var last := ext[|ext| - 1];
      var init := ext[..|ext| - 1];
      assert (base + "." + ext)[..|base + "." + ext| - 1] == base + "." + init;
      FileExtAfterDot(base, init);
      assert ext == init + [last];
    } else {
      assert (base + "." + ext)[|base + "." + ext| - 1] == '.';
    }
  }
}
