/** Short display names of container images. */
module ImageNames {
  import opened Strings

  function CutAt(s: string, c: char): string {
    if c in s then s[..Find(s, c)] else s
  }

  /** The image's base name in lower case, without registry path, tag, digest and a leading "cp-". */
  function ExtractImageShortName(image: string): string {
    var trimmed := TrimSpace(image);
    if trimmed == "" then "container"
    else
      var undigested := CutAt(trimmed, '@');
      var slash := FindLast(undigested, '/');
      var untagged := undigested[..slash] + CutAt(undigested[slash..], ':');
      var base := CutAt(untagged[FindLast(untagged, '/')..], ':');
      BaseName(base)
  }

  function BaseName(base: string): string {
    ToLower(if HasPrefix(base, "cp-") then base[3..] else base)
  }

  lemma BlankShortName(image: string)
    requires Blank(image)
    ensures ExtractImageShortName(image) == "container"
  {
    BlankTrimmed(image);
  }

  // ----- image references

  lemma {:induction false} CutAtFirst(s: string, c: char, rest: string)
    requires c !in s
    ensures CutAt(s + [c] + rest, c) == s
    ensures CutAt(s, c) == s
  {
    var all := s + [c] + rest;
    assert all[|s|] == c && all[..|s|] == s;
    FindIs(all, c, |s|);
  }

  lemma {:induction false} FindLastIs(s: string, c: char, i: nat)
    requires i <= |s| && c !in s[i..] && (i > 0 ==> s[i - 1] == c)
    ensures FindLast(s, c) == i
    decreases |s|
  {
    if i < |s| {
      assert s[|s| - 1] in s[i..];
      assert s[..|s| - 1][i..] == s[i..][..|s| - 1 - i];
      FindLastIs(s[..|s| - 1], c, i);
    }
  }

  /** The parts of an image reference: a registry path that is empty or ends in a slash, a base name, and an
      optional tag and digest with their separators. */
  predicate IsReference(path: string, base: string, tag: string, digest: string) {
    && '@' !in path && (path == "" || path[|path| - 1] == '/')
    && base != "" && '@' !in base && ':' !in base && '/' !in base
    && (tag == "" || tag[0] == ':') && '@' !in tag && '/' !in tag
    && (digest == "" || digest[0] == '@')
  }

  lemma PathAndTagDropped(path: string, base: string, tag: string)
    requires IsReference(path, base, tag, "")
    ensures var s := path + base + tag;
            FindLast(s, '/') == |path| && s[|path|..] == base + tag && CutAt(s[|path|..], ':') == base
  {
    var s := path + base + tag;
    assert s[|path|..] == base + tag;
    FindLastIs(s, '/', |path|);
    if tag == "" {
      assert base + tag == base;
      CutAtFirst(base, ':', "");
    } else {
      assert base + tag == base + [':'] + tag[1..];
      CutAtFirst(base, ':', tag[1..]);
    }
  }

  predicate Lowered(t: string, s: string) {
    |t| == |s| && forall i :: 0 <= i < |s| ==> Small(t[i], s[i])
  }

  predicate Small(small: char, c: char) {
    if 'A' <= c <= 'Z' then 'a' <= small <= 'z' && small as int - 'a' as int == c as int - 'A' as int else small == c
  }

  lemma LowerIs(s: string)
    ensures Lowered(ToLower(s), s)
  {
  }

  lemma ReferenceBase(before: string, path: string, base: string, tag: string, digest: string, after: string)
    requires IsReference(path, base, tag, digest) && Blank(before) && Blank(after)
    requires var s := path + base + tag + digest; !IsSpace(s[0]) && !IsSpace(s[|s| - 1])
    ensures ExtractImageShortName(before + (path + base + tag + digest) + after) == BaseName(base)
  {
    hide TrimSpace, CutAt, FindLast, ToLower, HasPrefix, Blank;
    var s, named := path + base + tag + digest, path + base + tag;
    TrimSurrounded(before, s, after);
    if digest == "" {
      assert s == named;
      CutAtFirst(named, '@', "");
    } else {
      assert s == named + ['@'] + digest[1..];
      CutAtFirst(named, '@', digest[1..]);
    }
    PathAndTagDropped(path, base, tag);
    PathAndTagDropped(path, base, "");
    assert path + base + "" == path + base && named[..|path|] == path;
  }

  /** Whatever registry, path, tag and digest an image has, with any white space around it, its short name is
      the base name in lower case without a leading "cp-". */
  lemma ShortNameOfReference(before: string, path: string, base: string, tag: string, digest: string, after: string)
    requires IsReference(path, base, tag, digest) && Blank(before) && Blank(after)
    requires var s := path + base + tag + digest; !IsSpace(s[0]) && !IsSpace(s[|s| - 1])
    ensures Lowered(ExtractImageShortName(before + (path + base + tag + digest) + after),
                    if |base| >= 3 && base[..3] == "cp-" then base[3..] else base)
  {
    ReferenceBase(before, path, base, tag, digest, after);
    hide ExtractImageShortName, IsReference, Blank;
    BaseNameIs(base);
  }

  lemma BaseNameIs(base: string)
    ensures Lowered(BaseName(base), if |base| >= 3 && base[..3] == "cp-" then base[3..] else base)
  {
    assert HasPrefix(base, "cp-") <==> |base| >= 3 && base[..3] == "cp-";
    LowerIs(if HasPrefix(base, "cp-") then base[3..] else base);
    hide ToLower, HasPrefix, Lowered;
  }
}
