/** Stored names of uploaded files: a time-and-random suffix followed by the
    extension of the client's file name, as Node's POSIX `path.extname` finds it.
    The clock and the random number are inputs. */
module FileNames {
  import opened Common

  /** The path without its trailing '/' characters. */
  function StripTrailingSlashes(p: string): (r: string)
    ensures StartsWith(p, r)
    ensures r == [] || r[|r| - 1] != '/'
    ensures forall k :: |r| <= k < |p| ==> p[k] == '/'
  {
    if p != [] && p[|p| - 1] == '/' then StripTrailingSlashes(p[..|p| - 1]) else p
  }

  /** The last path component: the longest suffix holding no '/'. */
  function BaseName(p: string): (r: string)
    ensures |r| <= |p| && r == p[|p| - |r|..]
    ensures forall k :: 0 <= k < |r| ==> r[k] != '/'
    ensures |r| == |p| || p[|p| - |r| - 1] == '/'
  {
    if p == [] || p[|p| - 1] == '/' then [] else BaseName(p[..|p| - 1]) + [p[|p| - 1]]
  }

  /** The index of the last '.' in `s`, if any. */
  function LastDot(s: string): (r: Option<nat>)
    ensures r.Some? ==> r.value < |s| && s[r.value] == '.' && forall k :: r.value < k < |s| ==> s[k] != '.'
    ensures r.None? ==> forall k :: 0 <= k < |s| ==> s[k] != '.'
  {
    if s == [] then None
    else if s[|s| - 1] == '.' then Some(|s| - 1)
    else LastDot(s[..|s| - 1])
  }

  /** `path.extname` (POSIX): from the last '.' of the last component to its end;
      empty when the component has no '.', when its only candidate dot is its first
      character (".profile"), or when the component is "..". */
  function ExtName(p: string): (ext: string)
    ensures ext == [] || (ext[0] == '.' && forall k :: 1 <= k < |ext| ==> ext[k] != '.')
    ensures forall k :: 0 <= k < |ext| ==> ext[k] != '/'
  {
    var base := BaseName(StripTrailingSlashes(p));
    match LastDot(base)
    case None => ""
    case Some(k) => if k == 0 || base == ".." then "" else base[k..]
  }

  /** The decimal digits of `n`, as a template literal prints a number. */
  function NatString(n: nat): (r: string)
    ensures r != []
    ensures forall k :: 0 <= k < |r| ==> IsDigit(r[k])
  {
    if n < 10 then [(n as char + '0')] else NatString(n / 10) + [(n % 10) as char + '0']
  }

  /** The storage `filename` callback: `${Date.now()}-${random}${extname(originalname)}`. */
  function StoredFilename(now: nat, random: nat, originalname: string): string
  {
    NatString(now) + "-" + NatString(random) + ExtName(originalname)
  }

  /** A path without '/' is its own last component. */
  lemma ExtNameOfSlashFree(s: string)
    requires forall k :: 0 <= k < |s| ==> s[k] != '/'
    ensures ExtName(s) == match LastDot(s)
      case None => ""
      case Some(k) => if k == 0 || s == ".." then "" else s[k..]
  {
    assert StripTrailingSlashes(s) == s;
    var base := BaseName(s);
    assert |base| == |s|;
    assert base == s;
  }

  /** A name of at least one character with no '/' or '.', followed by an
      extension as `ExtName` returns one, has exactly that extension. */
  lemma ExtNameAfterPlainName(name: string, ext: string)
    requires name != [] && forall k :: 0 <= k < |name| ==> name[k] != '/' && name[k] != '.'
    requires ext == [] || (ext[0] == '.' && forall k :: 1 <= k < |ext| ==> ext[k] != '.')
    requires forall k :: 0 <= k < |ext| ==> ext[k] != '/'
    ensures ExtName(name + ext) == ext
  {
    var s := name + ext;
    forall k | 0 <= k < |s| ensures s[k] != '/' {
      if k >= |name| {
        assert s[k] == ext[k - |name|];
      }
    }
    ExtNameOfSlashFree(s);
    if ext == [] {
      assert s == name;
      assert LastDot(s).None?;
    } else {
      assert s[|name|] == '.';
      forall k | |name| < k < |s| ensures s[k] != '.' {
        assert s[k] == ext[k - |name|];
      }
      assert LastDot(s) == Some(|name|);
      assert s[0] == name[0];
      assert s[|name|..] == ext;
    }
  }

  /** The stored name keeps the extension: Node finds in it exactly the extension
      it found in the client's file name. */
  lemma StoredFilenameKeepsExtension(now: nat, random: nat, originalname: string)
    ensures ExtName(StoredFilename(now, random, originalname)) == ExtName(originalname)
  {
    var digits1, digits2 := NatString(now), NatString(random);
    var prefix := digits1 + "-" + digits2;
    forall k | 0 <= k < |prefix| ensures prefix[k] != '/' && prefix[k] != '.' {
      if k < |digits1| {
        assert prefix[k] == digits1[k];
      } else if k > |digits1| {
        assert prefix[k] == digits2[k - |digits1| - 1];
      }
    }
    ExtNameAfterPlainName(prefix, ExtName(originalname));
  }
}
