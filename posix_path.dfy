/** The parts of `pathlib.PurePosixPath` that the metadata classifier uses:
    `parts`, `name` and `stem`. A path is parsed by splitting on '/',
    dropping empty and "." components; a leading "/" becomes the anchor
    (exactly two leading slashes keep the anchor "//", as POSIX allows). */
module PosixPath {

  /** `s.split('/')`: the maximal slash-free pieces of `s`, in order. */
  function SplitSlash(s: string): (r: seq<string>)
    ensures |r| >= 1
  {
    if s == [] then [""]
    else
      var rest := SplitSlash(s[1..]);
      if s[0] == '/' then [""] + rest else [[s[0]] + rest[0]] + rest[1..]
  }

  /** `'/'.join(cs)`. */
  function JoinSlash(cs: seq<string>): string
  {
    if cs == [] then ""
    else if |cs| == 1 then cs[0]
    else cs[0] + "/" + JoinSlash(cs[1..])
  }

  predicate SlashFree(c: string)
  {
    '/' !in c
  }

  /** Splitting loses nothing: joining the pieces gives the string back,
      and no piece contains a slash. */
  lemma {:induction false} SplitSlashJoin(s: string)
    ensures JoinSlash(SplitSlash(s)) == s
    ensures forall i :: 0 <= i < |SplitSlash(s)| ==> SlashFree(SplitSlash(s)[i])
    decreases |s|
  {
    if s != [] {
      var rest := SplitSlash(s[1..]);
      SplitSlashJoin(s[1..]);
      if s[0] == '/' {
        assert s == "/" + s[1..];
        assert ([""] + rest)[1..] == rest;
      } else {
        var r := [[s[0]] + rest[0]] + rest[1..];
        if |rest| == 1 {
          assert s == [s[0]] + s[1..];
        } else {
          assert r[1..] == rest[1..];
          assert JoinSlash(rest) == rest[0] + "/" + JoinSlash(rest[1..]);
          assert s == [s[0]] + s[1..];
        }
      }
    }
  }

  /** Splitting a join of slash-free pieces gives the pieces back. */
  lemma {:induction false} JoinSlashSplit(cs: seq<string>)
    requires |cs| >= 1
    requires forall i :: 0 <= i < |cs| ==> SlashFree(cs[i])
    ensures SplitSlash(JoinSlash(cs)) == cs
    decreases |cs|, |cs[0]|
  {
    if cs[0] == [] {
      if |cs| > 1 {
        assert JoinSlash(cs) == "/" + JoinSlash(cs[1..]);
        JoinSlashSplit(cs[1..]);
        assert ("/" + JoinSlash(cs[1..]))[1..] == JoinSlash(cs[1..]);
        assert cs == [""] + cs[1..];
      }
    } else {
      var c := cs[0];
      var cs' := [c[1..]] + cs[1..];
      assert cs'[1..] == cs[1..];
      assert c == [c[0]] + c[1..];
      forall i | 0 <= i < |cs'| ensures SlashFree(cs'[i]) {
        if i == 0 {
          assert forall ch :: ch in c[1..] ==> ch in c;
        }
      }
      JoinSlashSplit(cs');
      var j := JoinSlash(cs);
      assert j == [c[0]] + JoinSlash(cs');
      assert j[1..] == JoinSlash(cs');
      assert c[0] != '/' by { assert c[0] in c; }
    }
  }

  /** Components kept by pathlib: neither empty nor ".". */
  function Significant(cs: seq<string>): (r: seq<string>)
  {
    if cs == [] then []
    else (if cs[0] == "" || cs[0] == "." then [] else [cs[0]]) + Significant(cs[1..])
  }

  /** The anchor of a POSIX path: "//" for exactly two leading slashes, "/"
      for one or for three and more, "" for a relative path. */
  function Anchor(s: string): string
  {
    if |s| >= 2 && s[0] == '/' && s[1] == '/' && (|s| == 2 || s[2] != '/') then "//"
    else if |s| >= 1 && s[0] == '/' then "/"
    else ""
  }

  /** `PurePosixPath(s).parts`. */
  function Parts(s: string): seq<string>
  {
    (if Anchor(s) == "" then [] else [Anchor(s)]) + Significant(SplitSlash(s))
  }

  /** `PurePosixPath(s).name`: the last component, "" when there is none. */
  function Name(s: string): string
  {
    var cs := Significant(SplitSlash(s));
    if cs == [] then "" else cs[|cs| - 1]
  }

  /** `str.rfind('.')`. */
  function LastDot(name: string): (r: int)
    ensures -1 <= r < |name|
    ensures r >= 0 ==> name[r] == '.'
    ensures forall j :: r < j < |name| ==> name[j] != '.'
  {
    if name == [] then -1
    else if name[|name| - 1] == '.' then |name| - 1
    else LastDot(name[..|name| - 1])
  }

  /** Whether the name has a suffix: a dot that is neither its first nor its
      last character. */
  predicate HasSuffix(name: string)
  {
    0 < LastDot(name) < |name| - 1
  }

  /** `PurePath.stem`: the name without its final suffix. */
  function Stem(name: string): string
  {
    if HasSuffix(name) then name[..LastDot(name)] else name
  }

  /** `PurePath.suffix`: the final suffix, dot included, or "". */
  function Suffix(name: string): string
  {
    if HasSuffix(name) then name[LastDot(name)..] else ""
  }

  /** The stem and the suffix split the name: the suffix is "" or a dot
      followed by at least one character and no further dot, and the stem
      is empty only for the empty name. A suffix is split off exactly when
      the name has a dot that is neither its first nor its last character
      and is followed by no other dot. */
  lemma StemSuffix(name: string)
    ensures Stem(name) + Suffix(name) == name
    ensures Suffix(name) == "" || (|Suffix(name)| >= 2 && Suffix(name)[0] == '.' && '.' !in Suffix(name)[1..])
    ensures Stem(name) == "" <==> name == ""
    ensures Suffix(name) != "" <==> exists i :: 0 < i < |name| - 1 && name[i] == '.' && '.' !in name[i + 1..]
  {
    if HasSuffix(name) {
      var i := LastDot(name);
      assert name == name[..i] + name[i..];
      forall j | 0 <= j < |name[i..][1..]| ensures name[i..][1..][j] != '.' {
        assert name[i..][1..][j] == name[i + 1 + j];
      }
      assert name[i + 1..] == name[i..][1..];
      assert 0 < i < |name| - 1 && name[i] == '.' && '.' !in name[i + 1..];
    }
    if exists i :: 0 < i < |name| - 1 && name[i] == '.' && '.' !in name[i + 1..] {
      var i :| 0 < i < |name| - 1 && name[i] == '.' && '.' !in name[i + 1..];
      var r := LastDot(name);
      assert r == i;
    }
  }

  /** The dish name of a recipe file drops its extension. */
  lemma StemExample()
    ensures Stem("红烧肉.md") == "红烧肉"
  {
    var name := "红烧肉.md";
    assert name[3] == '.';
    assert LastDot(name) == 3 by {
      assert name[4] != '.' && name[5] != '.';
    }
    assert name[..3] == "红烧肉";
  }

  lemma JoinSlashHead(cs: seq<string>)
    requires |cs| >= 1 && cs[0] != ""
    ensures |JoinSlash(cs)| >= 1 && JoinSlash(cs)[0] == cs[0][0]
  {
    if |cs| > 1 {
      assert JoinSlash(cs) == cs[0] + ("/" + JoinSlash(cs[1..]));
    }
  }

  lemma {:induction false} SignificantKeeps(cs: seq<string>)
    requires forall i :: 0 <= i < |cs| ==> cs[i] != "" && cs[i] != "."
    ensures Significant(cs) == cs
    decreases |cs|
  {
    if cs != [] {
      SignificantKeeps(cs[1..]);
    }
  }

  predicate Ordinary(cs: seq<string>)
  {
    forall i :: 0 <= i < |cs| ==> SlashFree(cs[i]) && cs[i] != "" && cs[i] != "."
  }

  lemma ComponentsOfJoin(cs: seq<string>)
    requires |cs| >= 1 && Ordinary(cs)
    ensures Significant(SplitSlash(JoinSlash(cs))) == cs
    ensures Significant(SplitSlash("/" + JoinSlash(cs))) == cs
  {
    JoinSlashSplit(cs);
    SignificantKeeps(cs);
    var ecs := [""] + cs;
    assert ecs[1..] == cs;
    assert JoinSlash(ecs) == "/" + JoinSlash(cs);
    JoinSlashSplit(ecs);
  }

  lemma HeadNotSlash(cs: seq<string>)
    requires |cs| >= 1 && Ordinary(cs)
    ensures |JoinSlash(cs)| >= 1 && JoinSlash(cs)[0] != '/'
  {
    JoinSlashHead(cs);
    assert cs[0][0] in cs[0];
  }

  /** A relative path built from ordinary components parses back into them. */
  lemma PartsOfRelative(cs: seq<string>)
    requires |cs| >= 1 && Ordinary(cs)
    ensures Parts(JoinSlash(cs)) == cs
    ensures Name(JoinSlash(cs)) == cs[|cs| - 1]
  {
    ComponentsOfJoin(cs);
    HeadNotSlash(cs);
  }

  /** An absolute path built from ordinary components has the anchor "/"
      followed by those components. */
  lemma PartsOfAbsolute(cs: seq<string>)
    requires |cs| >= 1 && Ordinary(cs)
    ensures Parts("/" + JoinSlash(cs)) == ["/"] + cs
    ensures Name("/" + JoinSlash(cs)) == cs[|cs| - 1]
  {
    ComponentsOfJoin(cs);
    HeadNotSlash(cs);
    var p := "/" + JoinSlash(cs);
    assert p[0] == '/' && p[1] == JoinSlash(cs)[0];
  }

  lemma {:induction false} SignificantMembers(cs: seq<string>, c: string)
    ensures c in Significant(cs) <==> c in cs && c != "" && c != "."
    decreases |cs|
  {
    if cs != [] {
      SignificantMembers(cs[1..], c);
      assert cs == [cs[0]] + cs[1..];
    }
  }

  /** Membership in `parts` is exact equality with a whole slash-delimited
      piece of the path, never a substring of one. */
  lemma ComponentMembership(s: string, c: string)
    requires SlashFree(c) && c != "" && c != "."
    ensures c in Parts(s) <==> c in SplitSlash(s)
  {
    SignificantMembers(SplitSlash(s), c);
    assert '/' in Anchor(s) || Anchor(s) == "";
  }
}
