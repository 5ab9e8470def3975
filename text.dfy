/** String helpers standing in for the Python library calls the codec relies on:
    os.path.basename, str.split and str.strip. */
module Text {

  /** The text after the last '/' (os.path.basename on a POSIX path). */
  function Basename(path: string): (b: string)
    ensures |b| <= |path| && b == path[|path| - |b|..]
    ensures '/' !in b
    ensures |b| < |path| ==> path[|path| - |b| - 1] == '/'
  {
    if path == [] then []
    else if path[|path| - 1] == '/' then []
    else Basename(path[..|path| - 1]) + [path[|path| - 1]]
  }

  /** A suffix of path with no slash, preceded by a slash unless it is all of path, is the
      text after the last slash; so for path == prefix + name with no slash in name and
      prefix empty or ending in '/', it is name. */
  lemma LastComponent(path: string, prefix: string, name: string, b: string)
    requires path == prefix + name && '/' !in name && (prefix == [] || prefix[|prefix| - 1] == '/')
    requires |b| <= |path| && b == path[|path| - |b|..] && '/' !in b
    requires |b| < |path| ==> path[|path| - |b| - 1] == '/'
    ensures b == name
  {
    var j := |path| - |b|;
    forall i | |prefix| <= i < |path|
      ensures path[i] != '/'
    {
      assert path[i] == name[i - |prefix|] && name[i - |prefix|] in name;
    }
    forall i | j <= i < |path|
      ensures path[i] != '/'
    {
      assert path[i] == b[i - j] && b[i - j] in b;
    }
    assert prefix != [] ==> path[|prefix| - 1] == '/';
    assert j == |prefix|;
    assert path[|prefix|..] == name;
  }

  /** A name without a slash is its own basename. */
  lemma BasenameOfName(name: string)
    requires '/' !in name
    ensures Basename(name) == name
  {
    assert name == [] + name;
    LastComponent(name, [], name, Basename(name));
  }

  /** A directory prefix ending in '/' is dropped by Basename. */
  lemma BasenameOfPath(dir: string, name: string)
    requires '/' !in name
    ensures Basename(dir + "/" + name) == name
  {
    var path := dir + "/" + name;
    assert path == (dir + "/") + name;
    LastComponent(path, dir + "/", name, Basename(path));
  }

  /** Glues pieces back together with the separator between them. */
  function Join(pieces: seq<string>, sep: char): string
  {
    if pieces == [] then []
    else if |pieces| == 1 then pieces[0]
    else pieces[0] + [sep] + Join(pieces[1..], sep)
  }

  /** str.split with a one-character separator: never empty, the pieces hold no
      separator, and joining them with it gives the text back. */
  function Split(s: string, sep: char): (pieces: seq<string>)
    ensures |pieces| >= 1
    ensures forall i :: 0 <= i < |pieces| ==> sep !in pieces[i]
    ensures Join(pieces, sep) == s
  {
    if s == [] then [[]]
    else if s[0] == sep then [[]] + Split(s[1..], sep)
    else
      var rest := Split(s[1..], sep);
      assert s == [s[0]] + s[1..];
      [[s[0]] + rest[0]] + rest[1..]
  }

  /** Text without the separator is one piece. */
  lemma {:induction false} SplitNoSeparator(s: string, sep: char)
    requires sep !in s
    ensures Split(s, sep) == [s]
  {
    if s != [] {
      assert sep !in s[1..] by {
        forall i | 0 <= i < |s[1..]| ensures s[1..][i] != sep {
          assert s[1..][i] == s[i + 1];
        }
      }
      SplitNoSeparator(s[1..], sep);
      assert [s[0]] + s[1..] == s;
    }
  }

  /** The separator after a first piece that has none splits it off. */
  lemma {:induction false} SplitAfterPiece(a: string, sep: char, rest: string)
    requires sep !in a
    ensures Split(a + [sep] + rest, sep) == [a] + Split(rest, sep)
  {
    if a == [] {
      assert a + [sep] + rest == [sep] + rest;
      assert ([sep] + rest)[1..] == rest;
    } else {
      var s := a + [sep] + rest;
      assert s[1..] == a[1..] + [sep] + rest;
      assert sep !in a[1..] by {
        forall i | 0 <= i < |a[1..]| ensures a[1..][i] != sep {
          assert a[1..][i] == a[i + 1];
        }
      }
      SplitAfterPiece(a[1..], sep, rest);
      assert [a[0]] + a[1..] == a;
    }
  }

  /** The whitespace characters str.strip removes below 0x80: the ASCII spaces and
      the separators 0x1C to 0x1F. */
  predicate IsSpace(c: char)
  {
    c == ' ' || c == '\t' || c == '\n' || c == '\r' || c == '\U{000B}' || c == '\U{000C}' || ('\U{001C}' <= c <= '\U{001F}')
  }

  function TrimStart(s: string): (r: string)
    ensures |r| <= |s| && r == s[|s| - |r|..]
    ensures forall i :: 0 <= i < |s| - |r| ==> IsSpace(s[i])
    ensures r == [] || !IsSpace(r[0])
  {
    if s != [] && IsSpace(s[0]) then TrimStart(s[1..]) else s
  }

  function TrimEnd(s: string): (r: string)
    ensures |r| <= |s| && r == s[..|r|]
    ensures forall i :: |r| <= i < |s| ==> IsSpace(s[i])
    ensures r == [] || !IsSpace(r[|r| - 1])
  {
    if s != [] && IsSpace(s[|s| - 1]) then TrimEnd(s[..|s| - 1]) else s
  }

  /** r sits at index i of s with only whitespace before and after it. */
  predicate TrimmedAt(s: string, r: string, i: int)
  {
    0 <= i <= |s| - |r| && r == s[i..i + |r|]
    && (forall k :: 0 <= k < i ==> IsSpace(s[k]))
    && (forall k :: i + |r| <= k < |s| ==> IsSpace(s[k]))
  }

  /** str.strip(): the longest infix that neither starts nor ends with whitespace,
      everything cut off on either side being whitespace. */
  function Strip(s: string): (r: string)
    ensures exists i :: TrimmedAt(s, r, i)
    ensures r == [] || (!IsSpace(r[0]) && !IsSpace(r[|r| - 1]))
  {
    var t := TrimStart(s);
    var r := TrimEnd(t);
    TrimmedBothEnds(s, t, r);
    r
  }

  /** Cutting whitespace off the front and then off the back leaves an infix of s with
      only whitespace around it. */
  lemma TrimmedBothEnds(s: string, t: string, r: string)
    requires |t| <= |s| && t == s[|s| - |t|..] && (forall k :: 0 <= k < |s| - |t| ==> IsSpace(s[k]))
    requires |r| <= |t| && r == t[..|r|] && (forall k :: |r| <= k < |t| ==> IsSpace(t[k]))
    requires t == [] || !IsSpace(t[0])
    requires r == [] || !IsSpace(r[|r| - 1])
    ensures TrimmedAt(s, r, |s| - |t|)
    ensures r == [] || (!IsSpace(r[0]) && !IsSpace(r[|r| - 1]))
  {
    assert r != [] ==> r[0] == t[0];
    var i := |s| - |t|;
    forall k | i + |r| <= k < |s|
      ensures IsSpace(s[k])
    {
      assert s[k] == t[k - i];
    }
    assert r == s[i..i + |r|];
  }

  /** Text that neither starts nor ends with whitespace is left as it is by strip. */
  lemma StripUnspaced(s: string)
    requires s == [] || (!IsSpace(s[0]) && !IsSpace(s[|s| - 1]))
    ensures Strip(s) == s
  {
  }
}
