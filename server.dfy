/**
 * The request validation of the FastAPI backend: the guard chain of the
 * DELETE /delete-file endpoint over an abstract file system, and the
 * stored-name construction of POST /upload.
 */
module Server {
  import opened Wrappers
  import opened Text
  import opened Paths

  /** UPLOAD_DIRECTORY, relative to the server's working directory. */
  const UploadDirectory: string := "uploaded_documents"

  const EmptyPathDetail: string := "Se requiere la ruta del archivo"
  const ForbiddenDetail: string := "Acceso no permitido a esta ruta"
  const MissingDetail: string := "El archivo no existe"
  const NotAFileDetail: string := "La ruta no corresponde a un archivo"
  const LingeringDetail: string := "El archivo no se pudo eliminar"
  const DeleteErrorPrefix: string := "Error al eliminar el archivo: "
  const UploadErrorPrefix: string := "Error al subir el archivo: "

  /**
   * What `Path.is_file()` tells of an existing entry: a regular file, or
   * anything else (a directory, a FIFO, a socket, a device).
   */
  datatype Kind = RegularFile | NotRegularFile

  /** What the guards of delete_file decide before anything is removed. */
  datatype Guard = Proceed(target: Path) | Refuse(status: nat, detail: string)

  /** The JSON answer of delete_file: a success body or an HTTPException. */
  datatype DeleteResponse = Deleted(message: string) | HttpError(status: nat, detail: string)

  /** What Path.unlink() did: removed the file, raised, or returned with the file still there. */
  datatype UnlinkEffect = Unlinked | UnlinkRaised(reason: string) | StillPresent

  /** The resolved upload directory. */
  function UploadDir(cwd: Path): Path {
    Resolve(cwd, UploadDirectory)
  }

  lemma UploadDirIsBelowCwd(cwd: Path)
    ensures UploadDir(cwd) == cwd + [UploadDirectory]
  {
    assert '/' !in UploadDirectory;
    SplitWithoutSlash(UploadDirectory);
    WalkNames(cwd, [UploadDirectory]);
  }

  /**
   * The guard chain of delete_file, in its order: empty path, containment
   * of the resolved path in the upload directory, existence, regular file.
   */
  function DeleteGuard(cwd: Path, filePath: string, entries: map<Path, Kind>): (g: Guard)
    ensures g.Refuse? ==> g.status == 400 || g.status == 403 || g.status == 404
    ensures g.Proceed? ==>
              g.target == Resolve(cwd, filePath) && Contained(UploadDir(cwd), g.target)
              && g.target in entries && entries[g.target] == RegularFile
    ensures filePath == "" ==> g == Refuse(400, EmptyPathDetail)
  {
    if filePath == "" then Refuse(400, EmptyPathDetail)
    else
      var target := Resolve(cwd, filePath);
      if !Contained(UploadDir(cwd), target) then Refuse(403, ForbiddenDetail)
      else if target !in entries then Refuse(404, MissingDetail)
      else if entries[target] != RegularFile then Refuse(400, NotAFileDetail)
      else Proceed(target)
  }

  /** Each status of the guard chain, stated as the condition that produces it. */
  lemma DeleteGuardCases(cwd: Path, filePath: string, entries: map<Path, Kind>)
    ensures var g := DeleteGuard(cwd, filePath, entries);
            var target := Resolve(cwd, filePath);
            var inside := IsPrefix(UploadDir(cwd), target);
            && (g == Refuse(400, EmptyPathDetail) <==> filePath == "")
            && (g == Refuse(403, ForbiddenDetail) <==> filePath != "" && !inside)
            && (g == Refuse(404, MissingDetail) <==> filePath != "" && inside && target !in entries)
            && (g == Refuse(400, NotAFileDetail) <==>
                  filePath != "" && inside && target in entries && entries[target] == NotRegularFile)
            && (g.Proceed? <==>
                  filePath != "" && inside && target in entries && entries[target] == RegularFile)
            && (g.Proceed? ==> g.target == target)
  {
    ContainedIffPrefix(UploadDir(cwd), Resolve(cwd, filePath));
  }

  /**
   * A request that passes the guards names a regular file strictly inside
   * the upload directory, as long as the upload directory is not itself a
   * regular file.
   */
  lemma ProceedIsStrictlyInside(cwd: Path, filePath: string, entries: map<Path, Kind>)
    ensures var g := DeleteGuard(cwd, filePath, entries);
            && g.Proceed?
            && (UploadDir(cwd) in entries ==> entries[UploadDir(cwd)] == NotRegularFile)
            ==> UploadDir(cwd) in Parents(g.target) && g.target in entries && entries[g.target] == RegularFile
  {
    var target := Resolve(cwd, filePath);
    ContainedIffPrefix(UploadDir(cwd), target);
  }

  /** A ".." that climbs out of the upload directory is refused with 403. */
  lemma {:induction false} TraversalIsForbidden(cwd: Path, name: string, entries: map<Path, Kind>)
    requires Normal(cwd) && IsName(name) && name != UploadDirectory
    ensures DeleteGuard(cwd, UploadDirectory + "/../" + name, entries) == Refuse(403, ForbiddenDetail)
  {
    var s := UploadDirectory + "/../" + name;
    assert s == UploadDirectory + "/" + (".." + "/" + name);
    assert '/' !in UploadDirectory;
    SplitAtSlash(UploadDirectory, ".." + "/" + name);
    SplitAtSlash("..", name);
    SplitWithoutSlash(name);
    assert Split(s) == [UploadDirectory, "..", name];
    calc {
      Resolve(cwd, s);
      Walk(cwd, [UploadDirectory, "..", name]);
      Walk(cwd + [UploadDirectory], ["..", name]);
      Walk(cwd, [name]);
      { WalkNames(cwd, [name]); }
      cwd + [name];
    }
    UploadDirIsBelowCwd(cwd);
    ContainedIffPrefix(UploadDir(cwd), cwd + [name]);
    assert (cwd + [name])[|cwd|] == name;
  }

  /** The file system the endpoint acts on: which paths exist, and as what. */
  class FileSystem {
    var entries: map<Path, Kind>

    constructor (entries: map<Path, Kind>)
      ensures this.entries == entries
    {
      this.entries := entries;
    }

    predicate Exists(p: Path)
      reads this
    {
      p in entries
    }

    /** Path.unlink() on p, whose effect is given; returns the exception it raised, if any. */
    method Unlink(p: Path, effect: UnlinkEffect) returns (raised: Option<string>)
      modifies this
      ensures raised == (if effect.UnlinkRaised? then Some(effect.reason) else None)
      ensures entries == (if effect == Unlinked then old(entries) - {p} else old(entries))
    {
      match effect {
        case Unlinked =>
          entries := entries - {p};
          raised := None;
        case UnlinkRaised(reason) =>
          raised := Some(reason);
        case StillPresent =>
          raised := None;
      }
    }
  }

  /**
   * delete_file: run the guards, unlink, and check that the file is gone.
   * Only a request that passes every guard and whose unlink removes the
   * file succeeds, and then exactly that file leaves the file system.
   */
  method DeleteFile(fs: FileSystem, cwd: Path, filePath: string, effect: UnlinkEffect)
    returns (r: DeleteResponse)
    modifies fs
    ensures var g := DeleteGuard(cwd, filePath, old(fs.entries));
            && (g.Refuse? ==> r == HttpError(g.status, g.detail))
            && (g.Proceed? && effect.UnlinkRaised? ==> r == HttpError(500, DeleteErrorPrefix + effect.reason))
            && (g.Proceed? && effect.StillPresent? ==> r == HttpError(500, LingeringDetail))
            && (r.Deleted? <==> g.Proceed? && effect == Unlinked)
            && (r.Deleted? ==> r.message == "Archivo " + Name(g.target) + " eliminado correctamente")
    ensures r.Deleted? ==> fs.entries == old(fs.entries) - {Resolve(cwd, filePath)}
    ensures !r.Deleted? ==> fs.entries == old(fs.entries)
    ensures r.HttpError? ==> r.status in {400, 403, 404, 500}
  {
    var g := DeleteGuard(cwd, filePath, fs.entries);
    if g.Refuse? {
      return HttpError(g.status, g.detail);
    }
    var target := g.target;
    var raised := fs.Unlink(target, effect);
    if raised.Some? {
      return HttpError(500, DeleteErrorPrefix + raised.value);
    }
    if fs.Exists(target) {
      return HttpError(500, LingeringDetail);
    }
    r := Deleted("Archivo " + Name(target) + " eliminado correctamente");
  }

  /** A local date and time as datetime.now() gives it. */
  datatype DateTime = DateTime(year: nat, month: nat, day: nat, hour: nat, minute: nat, second: nat)

  predicate ValidDateTime(t: DateTime) {
    1000 <= t.year <= 9999 && 1 <= t.month <= 12 && 1 <= t.day <= 31
    && t.hour < 24 && t.minute < 60 && t.second < 60
  }

  /** strftime("%Y%m%d_%H%M%S"): fifteen characters, digits around one underscore. */
  function Timestamp(t: DateTime): (s: string)
    requires ValidDateTime(t)
    ensures |s| == 15 && s[8] == '_'
    ensures forall k :: 0 <= k < 15 && k != 8 ==> IsDigit(s[k])
    ensures s[..4] == PadDigits(t.year, 4) && s[4..6] == PadDigits(t.month, 2) && s[6..8] == PadDigits(t.day, 2)
    ensures s[9..11] == PadDigits(t.hour, 2) && s[11..13] == PadDigits(t.minute, 2) && s[13..] == PadDigits(t.second, 2)
  {
    var year, month, day := PadDigits(t.year, 4), PadDigits(t.month, 2), PadDigits(t.day, 2);
    var hour, minute, second := PadDigits(t.hour, 2), PadDigits(t.minute, 2), PadDigits(t.second, 2);
    var s := year + month + day + "_" + hour + minute + second;
    assert s[..4] == year && s[4..6] == month && s[6..8] == day;
    assert s[9..11] == hour && s[11..13] == minute && s[13..] == second;
    s
  }

  /** Each field of the timestamp reads back, in decimal, as the value it was made from. */
  lemma TimestampDenotesFields(t: DateTime)
    requires ValidDateTime(t)
    ensures var s := Timestamp(t);
            && AllDigits(s[..4]) && DigitsValue(s[..4]) == t.year
            && AllDigits(s[4..6]) && DigitsValue(s[4..6]) == t.month
            && AllDigits(s[6..8]) && DigitsValue(s[6..8]) == t.day
            && AllDigits(s[9..11]) && DigitsValue(s[9..11]) == t.hour
            && AllDigits(s[11..13]) && DigitsValue(s[11..13]) == t.minute
            && AllDigits(s[13..]) && DigitsValue(s[13..]) == t.second
  {
    assert Pow10(2) == 100 && Pow10(4) == 10000;
    PadDigitsExact(t.year, 4);
    PadDigitsExact(t.month, 2);
    PadDigitsExact(t.day, 2);
    PadDigitsExact(t.hour, 2);
    PadDigitsExact(t.minute, 2);
    PadDigitsExact(t.second, 2);
  }

  /** name.replace(' ', '_'): every space becomes an underscore, nothing else moves. */
  function ReplaceSpaces(name: string): (r: string)
    ensures |r| == |name|
    ensures forall k :: 0 <= k < |name| ==> r[k] == (if name[k] == ' ' then '_' else name[k])
  {
    if name == [] then []
    else [if name[0] == ' ' then '_' else name[0]] + ReplaceSpaces(name[1..])
  }

  /** The stored file name: timestamp, underscore, then the client's name without spaces. */
  function SafeFilename(t: DateTime, name: string): (r: string)
    requires ValidDateTime(t)
    ensures ' ' !in r
    ensures |r| == 16 + |name| && r[..16] == Timestamp(t) + "_" && r[16..] == ReplaceSpaces(name)
  {
    var r := Timestamp(t) + "_" + ReplaceSpaces(name);
    assert forall k :: 0 <= k < |r| ==> r[k] != ' ' by {
      forall k | 0 <= k < |r| ensures r[k] != ' ' {
        if k >= 16 { assert r[k] == ReplaceSpaces(name)[k - 16]; }
      }
    }
    r
  }

  /** The path upload_file writes to and returns: the stored name joined under the upload directory. */
  function StoredPath(t: DateTime, name: string): (p: string)
    requires ValidDateTime(t)
    ensures p == UploadDirectory + "/" + SafeFilename(t, name)
  {
    Join(UploadDirectory, SafeFilename(t, name))
  }

  /** The JSON answer of upload_file. */
  datatype UploadResponse =
    | Uploaded(message: string, filename: string, filePath: string)
    | UploadFailed(status: nat, detail: string)

  /**
   * upload_file, with the outcome of writing the file given: the exception
   * raised while opening or copying, if any.
   */
  function UploadFile(t: DateTime, filename: string, writeError: Option<string>): (r: UploadResponse)
    requires ValidDateTime(t)
    ensures r.Uploaded? <==> writeError.None?
    ensures r.Uploaded? ==> r.filename == filename && r.filePath == StoredPath(t, filename)
    ensures r.UploadFailed? ==> r == UploadFailed(500, UploadErrorPrefix + writeError.value)
  {
    match writeError
    case Some(reason) => UploadFailed(500, UploadErrorPrefix + reason)
    case None =>
      Uploaded("Archivo " + filename + " subido correctamente", filename, StoredPath(t, filename))
  }

  /** A stored name built from a client name without slashes is a single plain component. */
  lemma SafeFilenameIsName(t: DateTime, filename: string)
    requires ValidDateTime(t) && '/' !in filename
    ensures IsName(SafeFilename(t, filename))
  {
    var safe := SafeFilename(t, filename);
    var stamp := Timestamp(t);
    forall k | 0 <= k < |safe| ensures safe[k] != '/' {
      if k >= 16 {
        assert safe[k] == ReplaceSpaces(filename)[k - 16];
        assert filename[k - 16] in filename;
      } else if k < 15 {
        assert safe[k] == stamp[k];
      }
    }
    assert safe[0] == stamp[0];
  }

  /** A plain name joined under the upload directory resolves directly below it. */
  lemma ResolveStored(cwd: Path, safe: string)
    requires IsName(safe)
    ensures Resolve(cwd, UploadDirectory + "/" + safe) == UploadDir(cwd) + [safe]
  {
    var s := UploadDirectory + "/" + safe;
    assert '/' !in UploadDirectory;
    assert !IsAbsolute(s) by { assert s[0] == UploadDirectory[0]; }
    SplitAtSlash(UploadDirectory, safe);
    SplitWithoutSlash(safe);
    assert Split(s) == [UploadDirectory, safe];
    WalkNames(cwd, [UploadDirectory, safe]);
    UploadDirIsBelowCwd(cwd);
    assert cwd + [UploadDirectory] + [safe] == cwd + [UploadDirectory, safe];
  }

  /**
   * The path an upload returns for a name without slashes resolves to that
   * stored name directly below the upload directory, so a later delete of
   * it passes every guard while the file is there.
   */
  lemma UploadedPathIsDeletable(cwd: Path, t: DateTime, filename: string, entries: map<Path, Kind>)
    requires ValidDateTime(t) && '/' !in filename
    ensures Resolve(cwd, StoredPath(t, filename)) == UploadDir(cwd) + [SafeFilename(t, filename)]
    ensures var target := UploadDir(cwd) + [SafeFilename(t, filename)];
            target in entries && entries[target] == RegularFile ==>
              DeleteGuard(cwd, StoredPath(t, filename), entries) == Proceed(target)
  {
    var safe := SafeFilename(t, filename);
    SafeFilenameIsName(t, filename);
    ResolveStored(cwd, safe);
    var target := UploadDir(cwd) + [safe];
    ContainedIffPrefix(UploadDir(cwd), target);
    assert target[..|UploadDir(cwd)|] == UploadDir(cwd);
  }
}
