/** The image upload filter (backend/middleware/upload.js): an allow-list test
    on the file name's extension and on the declared MIME type, and a size
    limit of 5 MiB. */
module UploadMiddleware {
  import opened Text
  import opened Wrappers

  /** `limits.fileSize`: 5 MiB. */
  const MaxFileSize: nat := 5 * 1024 * 1024

  /** A file part as the upload middleware sees it. */
  datatype FilePart = FilePart(originalName: string, mimeType: string, size: nat)

  /** The verdict on one file part. */
  datatype Verdict = Accepted | NotAnImage | TooLarge

  // ---------------------------------------------------------------------
  // `path.extname` (POSIX)
  // ---------------------------------------------------------------------

  function DropTrailingSlashes(p: string): (r: string)
    ensures |r| <= |p| && r == p[..|r|]
    ensures r == [] || r[|r| - 1] != '/'
    ensures forall i :: |r| <= i < |p| ==> p[i] == '/'
  {
    if p != [] && p[|p| - 1] == '/' then DropTrailingSlashes(p[..|p| - 1]) else p
  }

  /** The text after the last `/`. */
  function AfterLastSlash(p: string): (r: string)
    ensures |r| <= |p| && r == p[|p| - |r|..]
    ensures '/' !in r
    ensures |r| < |p| ==> p[|p| - |r| - 1] == '/'
  {
    if p == [] || p[|p| - 1] == '/' then [] else AfterLastSlash(p[..|p| - 1]) + [p[|p| - 1]]
  }

  /** The last path component, ignoring trailing slashes. */
  function LastPart(p: string): string {
    AfterLastSlash(DropTrailingSlashes(p))
  }

  /** The position of the last `.` in `s`, if any. */
  function LastDot(s: string): (r: Option<nat>)
    ensures r.None? <==> '.' !in s
    ensures r.Some? ==> r.value < |s| && s[r.value] == '.' && '.' !in s[r.value + 1..]
  {
    if s == [] then None
    else if s[|s| - 1] == '.' then Some(|s| - 1)
    else
      var r := LastDot(s[..|s| - 1]);
      assert r.Some? ==> s[r.value + 1..] == s[..|s| - 1][r.value + 1..] + [s[|s| - 1]];
      r
  }

  /** The extension of one path component: the text from its last `.`, or
      nothing when it has no `.`, when its last `.` is its first character,
      or when the component is `..`. */
  function PartExtension(part: string): (ext: string)
    ensures |ext| <= |part| && ext == part[|part| - |ext|..]
    ensures ext == "" || (ext[0] == '.' && '.' !in ext[1..])
    ensures ext == "" <==> '.' !in part || LastDot(part) == Some(0) || part == ".."
    ensures ext != "" ==> LastDot(part).Some? && ext == part[LastDot(part).value..]
  {
    match LastDot(part)
    case None => ""
    case Some(d) =>
      if d == 0 || part == ".." then ""
      else
        assert part[d..][1..] == part[d + 1..];
        part[d..]
  }

  /** `path.extname(p)`: the suffix of the last component that starts at its
      last `.`; empty when that component has no `.`, when its last `.` is its
      first character, or when it is `..`. */
  function Extname(p: string): (ext: string)
    ensures ext == "" || (ext[0] == '.' && '.' !in ext[1..] && '/' !in ext)
    ensures ext == "" <==> '.' !in LastPart(p) || LastDot(LastPart(p)) == Some(0) || LastPart(p) == ".."
    ensures ext != "" ==> LastDot(LastPart(p)).Some? && ext == LastPart(p)[LastDot(LastPart(p)).value..]
  {
    var part := LastPart(p);
    var ext := PartExtension(part);
    assert forall i :: 0 <= i < |ext| ==> ext[i] == part[|part| - |ext| + i];
    ext
  }

  // ---------------------------------------------------------------------
  // The allow-list `/jpeg|jpg|png|gif|webp/`
  // ---------------------------------------------------------------------

  /** `/jpeg|jpg|png|gif|webp/.test(s)`: unanchored, so any occurrence counts. */
  predicate MatchesAllowedTypes(s: string)
    ensures MatchesAllowedTypes(s) ==> |s| >= 3
  {
    Contains(s, "jpeg") || Contains(s, "jpg") || Contains(s, "png") || Contains(s, "gif") || Contains(s, "webp")
  }

  /** `fileFilter`: the lower-cased extension and the MIME type (not
      lower-cased) must both match the allow-list. */
  predicate FileFilter(originalName: string, mimeType: string)
    ensures FileFilter(originalName, mimeType) ==> Extname(originalName) != "" && MatchesAllowedTypes(mimeType)
  {
    NoAllowedInitial(Lower(""));
    MatchesAllowedTypes(Lower(Extname(originalName))) && MatchesAllowedTypes(mimeType)
  }

  /** The upload middleware's decision on a file part: the filter runs when
      the part starts, the size limit while its bytes arrive. */
  function Check(f: FilePart): (v: Verdict)
    ensures v == Accepted <==> FileFilter(f.originalName, f.mimeType) && f.size <= MaxFileSize
    ensures v == TooLarge <==> FileFilter(f.originalName, f.mimeType) && f.size > MaxFileSize
    ensures v == NotAnImage <==> !FileFilter(f.originalName, f.mimeType)
  {
    if !FileFilter(f.originalName, f.mimeType) then NotAnImage
    else if f.size > MaxFileSize then TooLarge
    else Accepted
  }

  // ---------------------------------------------------------------------
  // Properties
  // ---------------------------------------------------------------------

  /** Lower-casing commutes with each step of `Extname`, because it keeps
      every `/` and `.` where it was. */
  lemma {:induction false} DropTrailingSlashesLower(p: string)
    ensures DropTrailingSlashes(Lower(p)) == Lower(DropTrailingSlashes(p))
  {
    var r := DropTrailingSlashes(p);
    var lr := DropTrailingSlashes(Lower(p));
    if p != [] && p[|p| - 1] == '/' {
      assert Lower(p)[|p| - 1] == '/';
      assert Lower(p)[..|p| - 1] == Lower(p[..|p| - 1]);
      DropTrailingSlashesLower(p[..|p| - 1]);
    } else if p != [] {
      assert Lower(p)[|p| - 1] != '/';
    }
  }

  lemma AfterLastSlashLower(p: string)
    ensures AfterLastSlash(Lower(p)) == Lower(AfterLastSlash(p))
  {
    var a := AfterLastSlash(p);
    var r := Lower(a);
    var lp := Lower(p);
    var off := |p| - |a|;
    forall k | 0 <= k < |r|
      ensures r[k] == lp[off + k] && r[k] != '/'
    {
      assert a[k] == p[off + k] && a[k] != '/';
    }
    assert r == lp[off..];
    if off > 0 {
      assert lp[off - 1] == LowerChar(p[off - 1]);
    }
    AfterLastSlashUnique(lp, r);
  }

  /** The last component is the one suffix without a `/` that is the whole
      path or follows a `/`. */
  lemma AfterLastSlashUnique(p: string, r: string)
    requires |r| <= |p| && r == p[|p| - |r|..]
    requires forall k :: 0 <= k < |r| ==> r[k] != '/'
    requires |r| < |p| ==> p[|p| - |r| - 1] == '/'
    ensures r == AfterLastSlash(p)
  {
  }

  lemma {:induction false} LastDotLower(s: string)
    ensures LastDot(Lower(s)) == LastDot(s)
  {
    if s != [] {
      LowerKeeps(s, |s| - 1, '.');
      if s[|s| - 1] != '.' {
        assert Lower(s)[..|s| - 1] == Lower(s[..|s| - 1]);
        LastDotLower(s[..|s| - 1]);
      }
    }
  }

  lemma PartExtensionLower(part: string)
    ensures PartExtension(Lower(part)) == Lower(PartExtension(part))
  {
    LastDotLower(part);
    match LastDot(part)
    case None =>
    case Some(d) =>
      LowerDotDot(part);
      assert Lower(part)[d..] == Lower(part[d..]);
  }

  /** Lower-casing neither makes nor unmakes the component `..`. */
  lemma LowerDotDot(s: string)
    ensures Lower(s) == ".." <==> s == ".."
  {
    if |s| == 2 {
      LowerKeeps(s, 0, '.');
      LowerKeeps(s, 1, '.');
      if Lower(s) == ".." {
        assert s[0] == '.' && s[1] == '.';
      }
    }
  }

  /** Taking the extension and lower-casing can be done in either order. */
  lemma ExtnameLower(p: string)
    ensures Extname(Lower(p)) == Lower(Extname(p))
  {
    DropTrailingSlashesLower(p);
    AfterLastSlashLower(DropTrailingSlashes(p));
    PartExtensionLower(LastPart(p));
  }

  /** The extension test ignores case: the filter's verdict depends on the
      file name only through its lower-cased form. */
  lemma FileFilterIgnoresNameCase(originalName: string, mimeType: string)
    ensures FileFilter(originalName, mimeType) == FileFilter(Lower(originalName), mimeType)
  {
    var e := Extname(originalName);
    ExtnameLower(originalName);
    LowerIdempotent(e);
    assert Lower(Extname(Lower(originalName))) == Lower(e);
  }

  /** A plain file name `stem + ext` whose stem does not start with a dot and
      holds no `/`, and whose extension starts with its only `.`, has that
      extension. */
  lemma {:induction false} ExtnameOfPlainName(stem: string, ext: string)
    requires stem != [] && stem[0] != '.' && '/' !in stem
    requires ext != [] && ext[0] == '.' && '.' !in ext[1..] && '/' !in ext
    ensures Extname(stem + ext) == ext
  {
    var p := stem + ext;
    assert p[|p| - 1] != '/';
    assert DropTrailingSlashes(p) == p;
    assert '/' !in p;
    NoSlashIsOwnLastPart(p);
    assert '.' !in p[|stem| + 1..] by { assert p[|stem| + 1..] == ext[1..]; }
    LastDotIs(p, |stem|);
  }

  lemma {:induction false} NoSlashIsOwnLastPart(p: string)
    requires '/' !in p
    ensures AfterLastSlash(p) == p
  {
    if p != [] {
      var q := p[..|p| - 1];
      assert forall c :: c in q ==> c in p;
      NoSlashIsOwnLastPart(q);
      assert AfterLastSlash(p) == AfterLastSlash(q) + [p[|p| - 1]];
      assert q + [p[|p| - 1]] == p;
    }
  }

  lemma LastDotIs(s: string, d: nat)
    requires d < |s| && s[d] == '.' && '.' !in s[d + 1..]
    ensures LastDot(s) == Some(d)
  {
  }

  /** A string none of whose characters is the first character of `t` does
      not contain `t`. */
  lemma {:induction false} NotContainsFirst(s: string, t: string)
    requires t != [] && t[0] !in s
    ensures !Contains(s, t)
  {
    if s != [] {
      assert t[0] !in s[1..];
      NotContainsFirst(s[1..], t);
    }
  }

  /** A string holding none of `j`, `p`, `g`, `w` (the first letters of the
      allowed types) does not match the allow-list. */
  lemma NoAllowedInitial(s: string)
    requires 'j' !in s && 'p' !in s && 'g' !in s && 'w' !in s
    ensures !MatchesAllowedTypes(s)
  {
    NotContainsFirst(s, "jpeg");
    NotContainsFirst(s, "jpg");
    NotContainsFirst(s, "png");
    NotContainsFirst(s, "gif");
    NotContainsFirst(s, "webp");
  }

  /** A file part without any extension is refused, whatever its type. */
  lemma NoExtensionRefused(originalName: string, mimeType: string)
    requires Extname(originalName) == ""
    ensures !FileFilter(originalName, mimeType)
  {
    NoAllowedInitial(Lower(""));
  }

  /** `photo` and `.png` have no extension (a leading dot starts a hidden
      name, not an extension), so both are refused. */
  lemma LeadingDotIsNoExtension()
    ensures Extname("photo") == "" && Extname(".png") == ""
    ensures !FileFilter("photo", "image/png") && !FileFilter(".png", "image/png")
  {
    NoDotRefused("photo", "image/png");
    LeadingDotRefused(".png", "image/png");
  }

  /** `photo`: no `.`, so no extension. */
  lemma NoDotRefused(a: string, m: string)
    requires a == "photo" && m == "image/png"
    ensures Extname(a) == "" && !FileFilter(a, m)
  {
    assert DropTrailingSlashes(a) == a;
    NoSlashIsOwnLastPart(a);
    assert LastDot(a) == None;
    NoExtensionRefused(a, m);
  }

  /** `.png`: its only `.` is its first character, so no extension. */
  lemma LeadingDotRefused(b: string, m: string)
    requires b == ".png" && m == "image/png"
    ensures Extname(b) == "" && !FileFilter(b, m)
  {
    assert DropTrailingSlashes(b) == b;
    NoSlashIsOwnLastPart(b);
    LastDotIs(b, 0);
    NoExtensionRefused(b, m);
  }

  /** A plain file name: not empty, not starting with a dot, no `/`. */
  predicate PlainStem(stem: string) {
    stem != [] && stem[0] != '.' && '/' !in stem
  }

  /** The filter's verdict once the lower-cased extension is known. */
  lemma VerdictByExtension(originalName: string, mimeType: string, ext: string)
    requires Lower(Extname(originalName)) == ext
    ensures FileFilter(originalName, mimeType) == (MatchesAllowedTypes(ext) && MatchesAllowedTypes(mimeType))
  {
  }

  /* The literal facts the examples below use. Each lemma takes its literal
     as a parameter equal to it, so that `Lower` and `Contains` unfold on
     that one parameter and not on every literal in the calling proof. */

  lemma ExeNotAllowed(e: string)
    requires e == ".exe"
    ensures Lower(e) == e && !MatchesAllowedTypes(e)
  {
    NoAllowedInitial(e);
  }

  lemma UpperJpgx(e: string)
    requires e == ".JPGX"
    ensures Lower(e) == ".jpgx"
  {
  }

  lemma JpgAllowed(e: string)
    requires e == ".jpg" || e == ".jpgx"
    ensures Lower(e) == e && MatchesAllowedTypes(e)
  {
    assert OccursAt(e, "jpg", 1);
    ContainsAt(e, "jpg", 1);
  }

  lemma JpegTypeAllowed(m: string)
    requires m == "image/jpeg"
    ensures MatchesAllowedTypes(m)
  {
    assert OccursAt(m, "jpeg", 6);
    ContainsAt(m, "jpeg", 6);
  }

  /** An extension that is not an image type is refused even when the MIME
      type is one: `photo.exe` declared as `image/png`. */
  lemma MismatchRefused(stem: string, mimeType: string)
    requires PlainStem(stem)
    ensures Extname(stem + ".exe") == ".exe"
    ensures !FileFilter(stem + ".exe", mimeType)
  {
    ExtnameOfPlainName(stem, ".exe");
    ExeNotAllowed(".exe");
    VerdictByExtension(stem + ".exe", mimeType, ".exe");
  }

  /** Matching is unanchored and the extension test ignores case:
      `photo.JPGX` declared as `image/jpeg` passes. */
  lemma UnanchoredMatchAccepted(stem: string)
    requires PlainStem(stem)
    ensures FileFilter(stem + ".JPGX", "image/jpeg")
  {
    ExtnameOfPlainName(stem, ".JPGX");
    UpperJpgx(".JPGX");
    JpgAllowed(".jpgx");
    JpegTypeAllowed("image/jpeg");
    VerdictByExtension(stem + ".JPGX", "image/jpeg", ".jpgx");
  }

  /** The MIME type is not lower-cased: `IMAGE/PNG` is refused whatever the
      file is called. */
  lemma MimeTypeCaseSensitive(originalName: string)
    ensures !FileFilter(originalName, "IMAGE/PNG")
  {
    NoAllowedInitial("IMAGE/PNG");
  }

  /** A 6 MiB `photo.jpg` of type `image/jpeg` passes the filter but is too
      large; exactly 5 MiB is still accepted. */
  lemma SizeLimit(stem: string)
    requires PlainStem(stem)
    ensures Check(FilePart(stem + ".jpg", "image/jpeg", 6 * 1024 * 1024)) == TooLarge
    ensures Check(FilePart(stem + ".jpg", "image/jpeg", 5 * 1024 * 1024)) == Accepted
  {
    ExtnameOfPlainName(stem, ".jpg");
    JpgAllowed(".jpg");
    JpegTypeAllowed("image/jpeg");
    VerdictByExtension(stem + ".jpg", "image/jpeg", ".jpg");
  }
}
