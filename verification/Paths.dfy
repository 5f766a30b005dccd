/** Rooted paths, as the parts between their slashes. A working directory may be any rooted text: it is taken over
    from the process environment as it stands, empty parts and dots included. */
module Paths {
  import opened Strings

  /** The root has no parts; "/a//b/" has the parts "a", "", "b" and "". */
  type Path = seq<string>

  predicate Rooted(text: string) {
    text != "" && text[0] == '/'
  }

  predicate IsPath(p: Path) {
    p != [""] && forall part <- p :: '/' !in part
  }

  function Joined(p: Path): string {
    if p == [] then "" else "/" + p[0] + Joined(p[1..])
  }

  function Text(p: Path): string {
    if p == [] then "/" else Joined(p)
  }

  lemma JoinedFirst(x: string, p: Path)
    ensures Joined([x] + p) == "/" + x + Joined(p)
  {
    assert ([x] + p)[1..] == p;
  }

  lemma JoinedOne(x: string)
    ensures Joined([x]) == "/" + x
  {
    JoinedFirst(x, []);
    assert [x] + [] == [x];
    assert "/" + x + "" == "/" + x;
  }

  ghost predicate NoSlashes(p: Path) {
    forall part <- p :: '/' !in part
  }

  lemma {:induction false} SplitParts(s: string, i: nat)
    requires i <= |s| && '/' !in s[..i]
    ensures Joined(SplitFrom(s, "/", i)) == "/" + s && NoSlashes(SplitFrom(s, "/", i))
    ensures s != "" ==> SplitFrom(s, "/", i) != [""]
    decreases |s|, |s| - i
  {
    hide Joined;
    if i == |s| {
      assert s[..i] == s;
      JoinedOne(s);
    } else if s[i] == '/' {
      assert s[i..i + 1] == "/";
      SplitParts(s[i + 1..], 0);
      JoinedFirst(s[..i], SplitFrom(s[i + 1..], "/", 0));
      Spliced(s, i);
    } else {
      assert s[i..i + 1] == [s[i]] && s[..i + 1] == s[..i] + [s[i]];
      SplitParts(s, i + 1);
    }
  }

  lemma Spliced(s: string, i: nat)
    requires i < |s| && s[i] == '/'
    ensures "/" + s[..i] + ("/" + s[i + 1..]) == "/" + s
  {
    assert s == s[..i] + ("/" + s[i + 1..]);
  }

  /** The parts of a rooted text. They are as good as the text: joined again, they give it back. */
  function Parts(text: string): (p: Path)
    requires Rooted(text)
    ensures IsPath(p) && Text(p) == text
  {
    if text == "/" then []
    else
      SplitParts(text[1..], 0);
      assert text == "/" + text[1..];
      Split(text[1..], "/")
  }

  lemma ShortTexts(x: string, y: string)
    ensures Text([x]) == "/" + x
    ensures Text([x, y]) == "/" + x + "/" + y
  {
    hide Joined;
    JoinedOne(x);
    JoinedOne(y);
    JoinedFirst(x, [y]);
    assert [x] + [y] == [x, y];
    assert "/" + x + ("/" + y) == "/" + x + "/" + y;
  }

  // ----- cleaning

  predicate Normal(part: string) {
    part != "" && part != "." && part != ".." && '/' !in part
  }

  predicate IsClean(p: Path) {
    forall part <- p :: Normal(part)
  }

  /** Drops empty parts and single dots; a double dot takes the part before it away. */
  function Clean(p: Path): (c: Path)
    ensures |c| <= |p|
    ensures IsPath(p) ==> IsClean(c)
  {
    if p == [] then []
    else
      var front, last := Clean(p[..|p| - 1]), p[|p| - 1];
      assert IsPath(p) ==> p[..|p| - 1] == [""] || IsPath(p[..|p| - 1]);
      if last == "" || last == "." then front
      else if last == ".." then (if front == [] then [] else front[..|front| - 1])
      else front + [last]
  }

  /** What cleaning makes of one more part: an empty one or a dot changes nothing, a double dot goes to the parent,
      which for the root is the root itself, and any other part is entered. */
  lemma CleanOneMore(p: Path, part: string)
    ensures part == "" || part == "." ==> Clean(p + [part]) == Clean(p)
    ensures part == ".." && Clean(p) == [] ==> Clean(p + [part]) == []
    ensures part == ".." && Clean(p) != [] ==> Clean(p + [part]) == Clean(p)[..|Clean(p)| - 1]
    ensures part != "" && part != "." && part != ".." ==> Clean(p + [part]) == Clean(p) + [part]
  {
    assert (p + [part])[..|p|] == p;
  }

  lemma {:induction false} CleanKeeps(p: Path)
    requires IsClean(p)
    ensures Clean(p) == p
  {
    if p != [] {
      var n := |p| - 1;
      assert p[n] in p;
      CleanKeeps(p[..n]);
      assert p == p[..n] + [p[n]];
    }
  }

  /** The directory of a path: what is before its last slash, cleaned. */
  function Dir(p: Path): Path {
    if p == [] then [] else Clean(p[..|p| - 1])
  }

  lemma CleanIsPath(p: Path)
    requires IsClean(p)
    ensures IsPath(p)
  {
    assert p != [] ==> p[0] in p;
  }

  lemma DirClean(p: Path)
    requires IsPath(p)
    ensures IsClean(Dir(p)) && IsPath(Dir(p))
    ensures p != [] ==> |Dir(p)| < |p|
    ensures IsClean(p) && p != [] ==> Dir(p) == p[..|p| - 1]
  {
    if p != [] {
      var front := p[..|p| - 1];
      if front == [""] {
        assert Clean(front) == [] by {
          assert front[..0] == [];
        }
      } else {
        assert IsPath(front);
      }
      if IsClean(p) {
        CleanKeeps(front);
      }
    }
    CleanIsPath(Dir(p));
  }

  /** A file of a directory. */
  function FileIn(dir: Path, name: string): string {
    Text(Clean(dir + [name]))
  }

  lemma FileInClean(dir: Path, name: string)
    requires Normal(name)
    ensures FileIn(dir, name) == Text(Clean(dir) + [name])
    ensures FileIn(Clean(dir), name) == FileIn(dir, name) || !IsPath(dir)
  {
    assert (dir + [name])[..|dir|] == dir;
    if IsPath(dir) {
      CleanKeeps(Clean(dir));
      assert (Clean(dir) + [name])[..|Clean(dir)|] == Clean(dir);
    }
  }

  // ----- texts of different depth differ

  lemma {:induction false} SlashesJoined(p: Path)
    requires forall part <- p :: '/' !in part
    ensures multiset(Joined(p))['/'] == |p|
  {
    if p != [] {
      SlashesJoined(p[1..]);
      assert p[0] in p;
      assert '/' !in multiset(p[0]);
    }
  }

  lemma DepthDiffers(p: Path, q: Path)
    requires (forall part <- p :: '/' !in part) && (forall part <- q :: '/' !in part)
    requires p != [] && q != [] && |p| != |q|
    ensures Text(p) != Text(q)
  {
    SlashesJoined(p);
    SlashesJoined(q);
  }

  /** A path has the text of its directory only if it is the root. */
  lemma DirSameIff(p: Path)
    requires IsPath(p)
    ensures Text(Dir(p)) == Text(p) <==> p == []
  {
    DirClean(p);
    if p != [] {
      if Dir(p) == [] {
        if |p| == 1 {
          assert p[0] != "";
          assert |Text(p)| > 1;
        } else {
          SlashesJoined(p);
          assert multiset("/")['/'] == 1;
        }
      } else {
        DepthDiffers(p, Dir(p));
      }
    }
  }
}
