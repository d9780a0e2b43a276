/**
 * The local-disk upload endpoint (app/api/upload/route.ts): the `kind` tag
 * is reduced to a safe directory name, the file keeps its extension (or
 * gets `.png`), and the response names the stored file by a relative URL.
 * The directory creation and the file write are an input outcome.
 */
module UploadRoute {

  import opened Wrappers
  import Text

  // ---------------------------------------------------------------- the kind tag

  /** What `/[^a-z0-9-_]/gi` does not remove: ASCII letters of either case,
      digits, `-` and `_`. */
  predicate IsKindChar(c: char) {
    ('a' <= c <= 'z') || ('A' <= c <= 'Z') || ('0' <= c <= '9') || c == '-' || c == '_'
  }

  /** The characters a safe kind is made of. */
  predicate IsSafeKindChar(c: char) {
    ('a' <= c <= 'z') || ('0' <= c <= '9') || c == '-' || c == '_'
  }

  /** `replace(/[^a-z0-9-_]/gi, "")`: keeps the kind characters, in order,
      and drops every other character. */
  function StripDisallowed(s: string): (r: string)
    ensures |r| <= |s|
    ensures forall i :: 0 <= i < |r| ==> IsKindChar(r[i])
    ensures forall c :: c in r ==> c in s
    ensures forall c :: c in s && IsKindChar(c) ==> c in r
    ensures (forall i :: 0 <= i < |s| ==> IsKindChar(s[i])) ==> r == s
  {
    if s == [] then ""
    else
      var rest := StripDisallowed(s[1..]);
      assert s == [s[0]] + s[1..];
      if IsKindChar(s[0]) then [s[0]] + rest else rest
  }

  /** `safeKind`: the sanitised, lower-cased tag, `"generic"` when the tag is
      missing or empty, or when nothing of it survives. The source sanitises
      the fallback `"generic"` too; it is already safe (`GenericIsSafe`). */
  function SafeKind(kind: Option<string>): (k: string)
    ensures k != []
    ensures forall i :: 0 <= i < |k| ==> IsSafeKindChar(k[i])
    ensures !Text.Truthy(kind) ==> k == "generic"
    ensures kind.Some? && (forall c :: c in kind.value ==> !IsKindChar(c)) ==> k == "generic"
    ensures kind.Some? && (exists c :: c in kind.value && IsKindChar(c)) ==>
      k == Text.Lower(StripDisallowed(kind.value))
  {
    if !Text.Truthy(kind) then
      GenericIsSafe();
      "generic"
    else
      var stripped := StripDisallowed(kind.value);
      var cleaned := Text.Lower(stripped);
      assert forall i :: 0 <= i < |cleaned| ==> IsSafeKindChar(cleaned[i]) by {
        forall i | 0 <= i < |cleaned| ensures IsSafeKindChar(cleaned[i]) {
          LowerKindChar(stripped[i]);
        }
      }
      assert (exists c :: c in kind.value && IsKindChar(c)) ==> stripped != [] by {
        if exists c :: c in kind.value && IsKindChar(c) {
          var c :| c in kind.value && IsKindChar(c);
          assert c in stripped;
        }
      }
      assert stripped != [] ==> stripped[0] in stripped;
      if cleaned == "" then "generic" else cleaned
  }

  /** Stripping is a filter: it works piece by piece ... */
  lemma {:induction false} StripDisallowedAppend(a: string, b: string)
    ensures StripDisallowed(a + b) == StripDisallowed(a) + StripDisallowed(b)
  {
    if a == [] {
      assert a + b == b;
    } else {
      assert a == [a[0]] + a[1..] && a + b == [a[0]] + (a[1..] + b);
      StripDisallowedAppend(a[1..], b);
      StripDisallowedCons(a[0], a[1..]);
      StripDisallowedCons(a[0], a[1..] + b);
      Text.AppendAssoc(if IsKindChar(a[0]) then [a[0]] else [], StripDisallowed(a[1..]), StripDisallowed(b));
    }
  }

  lemma StripDisallowedCons(c: char, rest: string)
    ensures StripDisallowed([c] + rest) == (if IsKindChar(c) then [c] else []) + StripDisallowed(rest)
  {
    assert ([c] + rest)[1..] == rest;
  }

  /** ... and keeps exactly the kind characters. */
  lemma StripDisallowedSingle(c: char)
    ensures StripDisallowed([c]) == if IsKindChar(c) then [c] else []
  {
    assert [c][1..] == [];
  }

  /** The fallback tag survives sanitising unchanged. */
  lemma GenericIsSafe()
    ensures forall i :: 0 <= i < |"generic"| ==> IsSafeKindChar("generic"[i])
    ensures Text.Lower(StripDisallowed("generic")) == "generic"
  {
    var g := "generic";
    assert forall i :: 0 <= i < |g| ==> IsSafeKindChar(g[i]);
    SafeIsStable(g);
  }

  /** Sanitising a string of safe characters returns it unchanged. */
  lemma SafeIsStable(s: string)
    requires forall i :: 0 <= i < |s| ==> IsSafeKindChar(s[i])
    ensures Text.Lower(StripDisallowed(s)) == s
  {
    assert StripDisallowed(s) == s;
    assert forall i :: 0 <= i < |s| ==> Text.LowerChar(s[i]) == s[i];
  }

  lemma LowerKindChar(c: char)
    requires IsKindChar(c)
    ensures IsSafeKindChar(Text.LowerChar(c))
  {
  }

  /** Every letter or digit of the tag, `-` and `_` included, survives
      (lower-cased) unless nothing survives at all. */
  lemma SafeKindKeeps(kind: string, c: char)
    requires c in kind && IsKindChar(c)
    ensures Text.LowerChar(c) in SafeKind(Some(kind))
  {
    var stripped := StripDisallowed(kind);
    assert c in stripped;
    var i :| 0 <= i < |stripped| && stripped[i] == c;
    assert Text.Lower(stripped)[i] == Text.LowerChar(c);
  }

  /** Sanitising a safe kind returns it unchanged. */
  lemma SafeKindIdempotent(kind: Option<string>)
    ensures SafeKind(Some(SafeKind(kind))) == SafeKind(kind)
  {
    SafeIsStable(SafeKind(kind));
  }

  // ---------------------------------------------------------------- the extension

  function StripTrailingSlashes(s: string): (r: string)
    ensures |r| <= |s| && r == s[..|r|]
    ensures r == [] || r[|r| - 1] != '/'
  {
    if s != [] && s[|s| - 1] == '/' then StripTrailingSlashes(s[..|s| - 1]) else s
  }

  /** The last component of a path, trailing separators ignored. */
  function BaseName(path: string): (b: string)
    ensures '/' !in b
  {
    Text.Last(Text.Split(StripTrailingSlashes(path), '/'))
  }

  /** `path.extname`: from the last dot of the base name to its end; empty
      when the base name has no dot, when its only dot leads it, or when it
      is `..`. */
  function ExtName(path: string): (ext: string)
    ensures ext == [] || (ext[0] == '.' && '.' !in ext[1..] && '/' !in ext)
    ensures var base := BaseName(path);
      ext == [] <==> '.' !in base || (base[0] == '.' && '.' !in base[1..]) || base == ".."
    ensures var base := BaseName(path);
      ext != [] ==> |ext| < |base| && ext == base[|base| - |ext|..]
  {
    var base := BaseName(path);
    var afterDot := Text.Last(Text.Split(base, '.'));
    Text.SplitLast(base, '.');
    assert '.' !in afterDot by {
      var pieces := Text.Split(base, '.');
      assert afterDot == pieces[|pieces| - 1];
    }
    var dot := |base| - |afterDot| - 1;
    assert '.' in base && dot == 0 ==> base[1..] == afterDot;
    if |afterDot| >= |base| - 1 || base == ".." then ""
    else
      var ext := base[|base| - |afterDot| - 1..];
      assert ext[1..] == afterDot;
      assert forall c :: c in ext ==> c in base;
      ext
  }

  /** A name `stem.ext` has the extension `.ext`, for a stem other than
      empty and a pair that is not `..`. */
  lemma ExtNameOfStemAndExtension(stem: string, ext: string)
    requires stem != [] && !(stem == "." && ext == [])
    requires '/' !in stem && '/' !in ext && '.' !in ext
    ensures ExtName(stem + "." + ext) == "." + ext
  {
    var name := stem + "." + ext;
    NoSlashAroundDot(stem, ext);
    BaseNameOfName(name);
    assert name == stem + ['.'] + ext;
    LastAfterFinalSeparator(stem, '.', ext);
    assert name[|name| - |ext| - 1..] == "." + ext;
  }

  lemma NoSlashAroundDot(stem: string, ext: string)
    requires '/' !in stem && '/' !in ext
    ensures '/' !in stem + "." + ext
  {
    var name := stem + "." + ext;
    forall i | 0 <= i < |name| ensures name[i] != '/' {
      if i < |stem| { assert name[i] == stem[i]; }
      else if i > |stem| { assert name[i] == ext[i - |stem| - 1]; }
    }
  }

  /** A name without a separator is its own base name. */
  lemma BaseNameOfName(name: string)
    requires name != [] && '/' !in name
    ensures BaseName(name) == name
  {
    assert StripTrailingSlashes(name) == name;
    Text.SplitWithoutSeparator(name, '/');
  }

  /** The last piece of `a + sep + b` is `b` when `b` holds no separator. */
  lemma LastAfterFinalSeparator(a: string, sep: char, b: string)
    requires sep !in b
    ensures Text.Last(Text.Split(a + [sep] + b, sep)) == b
  {
    var s := a + [sep] + b;
    Text.SplitLast(s, sep);
    var l := Text.Last(Text.Split(s, sep));
    assert s[|a| + 1..] == b;
    assert s[|a|] == sep;
  }

  /** A base name without a dot has no extension. */
  lemma ExtNameWithoutDot(name: string)
    requires '/' !in name && '.' !in name
    ensures ExtName(name) == ""
  {
    if name != [] {
      assert StripTrailingSlashes(name) == name;
    }
    Text.SplitWithoutSeparator(StripTrailingSlashes(name), '/');
  }

  /** Trailing separators do not change the extension. */
  lemma ExtNameIgnoresTrailingSlash(path: string)
    ensures ExtName(path + "/") == ExtName(path)
  {
    var p := path + "/";
    assert p != [] && p[|p| - 1] == '/' && p[..|p| - 1] == path;
    assert StripTrailingSlashes(p) == StripTrailingSlashes(path);
    assert BaseName(p) == BaseName(path);
  }

  /** Only the last component of a path decides its extension. */
  lemma ExtNameOfLastComponent(dir: string, name: string)
    requires name != [] && '/' !in name
    ensures ExtName(dir + "/" + name) == ExtName(name)
  {
    var p := dir + "/" + name;
    assert p[|p| - 1] == name[|name| - 1];
    assert StripTrailingSlashes(p) == p;
    assert p == dir + ['/'] + name;
    LastAfterFinalSeparator(dir, '/', name);
    assert StripTrailingSlashes(name) == name;
    Text.SplitWithoutSeparator(name, '/');
    assert BaseName(p) == BaseName(name);
  }

  // ---------------------------------------------------------------- the request

  /** The multipart form: unreadable, or its `file` part as the file's name
      (None when the part is missing or is not a file) and its `kind` tag. */
  datatype UploadRequest = MalformedForm | UploadForm(file: Option<string>, kind: Option<string>)

  datatype UploadResponse = UploadError(status: nat, error: string) | UploadOk(url: string)

  /** `${Date.now()}-${crypto.randomUUID()}${ext}`, the extension defaulting to `.png`. */
  function StoredFileName(name: string, now: nat, uuid: string): (f: string)
    ensures var stamp := Text.DecimalString(now) + "-" + uuid;
      |stamp| < |f| && f[..|stamp|] == stamp
    ensures var stamp, ext := Text.DecimalString(now) + "-" + uuid, ExtName(name);
      |stamp| < |f| && f[|stamp|..] == if ext == "" then ".png" else ext
  {
    var ext := ExtName(name);
    Text.DecimalString(now) + "-" + uuid + (if ext == "" then ".png" else ext)
  }

  /** The stored file keeps the extension of the uploaded one, and is a
      `.png` when the upload had none. */
  lemma StoredFileKeepsExtension(name: string, now: nat, uuid: string)
    requires '/' !in uuid
    ensures var ext := ExtName(name);
      ExtName(StoredFileName(name, now, uuid)) == if ext == "" then ".png" else ext
  {
    var ext := ExtName(name);
    var tail := if ext == "" then ".png" else ext;
    var stamp := Text.DecimalString(now) + "-" + uuid;
    StampHasNoSlash(now, uuid);
    assert stamp[|stamp| - |uuid| - 1] == '-';
    ExtNameAfterStamp(stamp, tail);
  }

  lemma ExtNameAfterStamp(stamp: string, tail: string)
    requires stamp != [] && stamp != "." && '/' !in stamp
    requires tail != [] && tail[0] == '.' && '.' !in tail[1..] && '/' !in tail
    ensures ExtName(stamp + tail) == tail
  {
    assert tail == "." + tail[1..];
    assert '/' !in tail[1..];
    ExtNameOfStemAndExtension(stamp, tail[1..]);
    assert stamp + tail == stamp + "." + tail[1..];
  }

  lemma StampHasNoSlash(now: nat, uuid: string)
    requires '/' !in uuid
    ensures '/' !in Text.DecimalString(now) + "-" + uuid
  {
    var digits := Text.DecimalString(now);
    var stamp := digits + "-" + uuid;
    forall i | 0 <= i < |stamp| ensures stamp[i] != '/' {
      if i < |digits| { assert stamp[i] == digits[i]; }
      else if i > |digits| { assert stamp[i] == uuid[i - |digits| - 1]; }
    }
  }

  /** `POST`: an unreadable form answers 500; a missing file is rejected
      before anything is written; a failed directory creation or write
      (`written` false) answers 500; otherwise the URL path names the safe kind
      and the stored file name. */
  function Post(req: UploadRequest, now: nat, uuid: string, written: bool): (r: UploadResponse)
    ensures req.MalformedForm? ==> r == UploadError(500, "Upload failed")
    ensures req.UploadForm? && req.file.None? ==> r == UploadError(400, "Missing file")
    ensures req.UploadForm? && req.file.Some? && !written ==> r == UploadError(500, "Upload failed")
    ensures req.UploadForm? && req.file.Some? && written ==>
      r == UploadOk("/uploads/" + SafeKind(req.kind) + "/" + StoredFileName(req.file.value, now, uuid))
  {
    match req
    case MalformedForm => UploadError(500, "Upload failed")
    case UploadForm(file, kind) =>
      match file
      case None => UploadError(400, "Missing file")
      case Some(name) =>
        if !written then UploadError(500, "Upload failed")
        else UploadOk("/uploads/" + SafeKind(kind) + "/" + StoredFileName(name, now, uuid))
  }

  /** The returned URL splits into `/uploads/<safeKind>/<file name>`: the
      URL path names the safe kind and the stored file name. */
  lemma UrlNamesStoredFile(req: UploadRequest, now: nat, uuid: string)
    requires req.UploadForm? && req.file.Some? && '/' !in uuid
    ensures Post(req, now, uuid, true).UploadOk?
    ensures Text.Split(Post(req, now, uuid, true).url, '/')
      == ["", "uploads", SafeKind(req.kind), StoredFileName(req.file.value, now, uuid)]
  {
    var kind := SafeKind(req.kind);
    var file := StoredFileName(req.file.value, now, uuid);
    SafeKindHasNoSlash(req.kind);
    StoredFileNameHasNoSlash(req.file.value, now, uuid);
    UrlSplits(kind, file);
  }

  lemma UrlSplits(kind: string, file: string)
    requires '/' !in kind && '/' !in file
    ensures Text.Split("/uploads/" + kind + "/" + file, '/') == ["", "uploads", kind, file]
  {
    var parts := ["", "uploads", kind, file];
    JoinUrl(kind, file);
    Text.SplitJoin(parts, '/');
  }

  lemma SafeKindHasNoSlash(kind: Option<string>)
    ensures '/' !in SafeKind(kind)
  {
    var k := SafeKind(kind);
    forall i | 0 <= i < |k| ensures k[i] != '/' { assert IsSafeKindChar(k[i]); }
  }

  lemma StoredFileNameHasNoSlash(name: string, now: nat, uuid: string)
    requires '/' !in uuid
    ensures '/' !in StoredFileName(name, now, uuid)
  {
    var ext := ExtName(name);
    var tail := if ext == "" then ".png" else ext;
    var stamp := Text.DecimalString(now) + "-" + uuid;
    StampHasNoSlash(now, uuid);
    assert '/' !in tail;
    NoSlashInConcat(stamp, tail);
    assert StoredFileName(name, now, uuid) == stamp + tail;
  }

  lemma NoSlashInConcat(a: string, b: string)
    requires '/' !in a && '/' !in b
    ensures '/' !in a + b
  {
  }

  /** The URL of `Post` is the join of its four path pieces. */
  lemma JoinUrl(kind: string, file: string)
    ensures Text.Join(["", "uploads", kind, file], "/") == "/uploads/" + kind + "/" + file
  {
    var parts := ["", "uploads", kind, file];
    assert parts[1..] == ["uploads", kind, file];
    assert parts[1..][1..] == [kind, file];
    assert parts[1..][1..][1..] == [file];
    assert Text.Join([kind, file], "/") == kind + "/" + file;
    assert Text.Join(["uploads", kind, file], "/") == "uploads" + "/" + (kind + "/" + file);
    assert Text.Join(parts, "/") == "" + "/" + ("uploads" + "/" + (kind + "/" + file));
  }
}
