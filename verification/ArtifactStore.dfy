/**
The immutable artifact store: one directory per artifact revision, one content file in it,
written through a temporary file and an atomic rename that never replaces. Writers are
serialized. Every step of a write may fail, and the process may stop at every step.
*/
module ArtifactStore {
  import opened Basics

  type Bytes = seq<bv8>

  /** A revision directory. */
  datatype Slot = Slot(workflow: string, typ: string, revision: int)

  /** The directories that exist, each with its files by name. */
  type Disk = map<Slot, map<string, Bytes>>

  /** `meta` stands for creation time, producer, input references and redaction facts. */
  datatype Envelope = Envelope(
    schemaVersion: string,
    typ: string,
    workflow: string,
    revision: int,
    meta: string,
    sha: string,
    content: Bytes)

  datatype Ref = Ref(slot: Slot, hash: string)

  const MaxFileBytes := 8388608

  predicate HexDigit(c: char) {
    '0' <= c <= '9' || 'a' <= c <= 'f'
  }

  /** 64 lowercase hex characters. */
  predicate ContentName(name: string) {
    |name| == 64 && forall c <- name :: HexDigit(c)
  }

  /** The serialization and the digest the store is built on. */
  datatype Format = Format(
    marshal: Envelope -> Bytes,
    parse: Bytes -> Option<Envelope>,
    digest: (string, string, int, Bytes) -> string,
    supported: (string, string) -> bool)
  {
    ghost predicate Faithful() {
      && (forall e :: parse(marshal(e)) == Some(e))
      && (forall v, t, r, c :: ContentName(digest(v, t, r, c)))
    }

    function Digest(e: Envelope): string {
      digest(e.schemaVersion, e.typ, e.revision, e.content)
    }
  }

  // ----- What a stored file must be -----

  /** The bytes are the canonical form of an envelope of this slot whose digest is the name. */
  predicate Whole(f: Format, slot: Slot, name: string, data: Bytes) {
    && |data| <= MaxFileBytes
    && f.parse(data).Some?
    && var e := f.parse(data).value;
      && f.marshal(e) == data
      && f.supported(e.typ, e.schemaVersion)
      && Slot(e.workflow, e.typ, e.revision) == slot
      && f.Digest(e) == name == e.sha
  }

  function Contents(files: map<string, Bytes>): map<string, Bytes> {
    map n | n in files && ContentName(n) :: files[n]
  }

  /** At most one content file per revision, and every one of them whole. */
  ghost predicate Sound(f: Format, d: Disk) {
    forall s <- d :: SoundFiles(f, s, d[s])
  }

  ghost predicate SoundFiles(f: Format, s: Slot, files: map<string, Bytes>) {
    && (forall m, n :: m in Contents(files) && n in Contents(files) ==> m == n)
    && (forall n <- Contents(files) :: Whole(f, s, n, files[n]))
  }

  /** No content file is ever changed or lost. */
  ghost predicate Keeps(d: Disk, e: Disk) {
    forall s, n :: s in d && n in Contents(d[s]) ==> s in e && n in Contents(e[s]) && e[s][n] == d[s][n]
  }

  /** The content of every revision is the same. */
  ghost predicate SameContents(d: Disk, e: Disk) {
    && (forall s <- d :: s in e && Contents(e[s]) == Contents(d[s]))
    && (forall s <- e :: s !in d ==> Contents(e[s]) == map[])
  }

  // ----- One write, as the disk sees it -----

  /**
  Everything a write to `slot` may do to the disk: other directories stay, files in the
  directory stay, a temporary file may be left over, and `data` may be installed as `name`
  in a directory without content.
  */
  ghost predicate Effect(d: Disk, slot: Slot, name: string, data: Bytes, e: Disk) {
    && (forall s :: s != slot ==> (s in e <==> s in d))
    && (forall s <- d :: s != slot ==> e[s] == d[s])
    && (slot in d ==> slot in e)
    && (slot in e ==> FilesEffect(FilesOf(d, slot), name, data, e[slot]))
  }

  function FilesOf(d: Disk, s: Slot): map<string, Bytes> {
    if s in d then d[s] else map[]
  }

  ghost predicate FilesEffect(before: map<string, Bytes>, name: string, data: Bytes, after: map<string, Bytes>) {
    || Contents(after) == Contents(before)
    || (Contents(before) == map[] && Contents(after) == map[name := data])
  }

  lemma EffectSound(f: Format, d: Disk, slot: Slot, name: string, data: Bytes, e: Disk)
    requires Sound(f, d) && Effect(d, slot, name, data, e) && Whole(f, slot, name, data)
    ensures Sound(f, e) && Keeps(d, e)
  {
    forall s | s in e ensures SoundFiles(f, s, e[s]) {
      hide Whole;
      if s != slot {
        assert SoundFiles(f, s, d[s]);
      } else {
        FilesSound(f, slot, FilesOf(d, slot), name, data, e[slot]);
      }
    }
    hide Whole, Sound;
    forall s, n | s in d && n in Contents(d[s]) ensures s in e && n in Contents(e[s]) && e[s][n] == d[s][n] {
      if s == slot {
        assert Contents(e[s]) == Contents(d[s]);
        assert Contents(e[s])[n] == e[s][n] && Contents(d[s])[n] == d[s][n];
      }
    }
  }

  lemma FilesSound(f: Format, slot: Slot, before: map<string, Bytes>, name: string, data: Bytes, after: map<string, Bytes>)
    requires before == map[] || SoundFiles(f, slot, before)
    requires FilesEffect(before, name, data, after) && Whole(f, slot, name, data)
    ensures SoundFiles(f, slot, after)
  {
    hide Whole;
    forall n | n in Contents(after) ensures Whole(f, slot, n, after[n]) {
      assert Contents(after)[n] == after[n];
      assert n in Contents(before) ==> Contents(before)[n] == before[n];
    }
  }

  // ----- The store -----

  datatype Act = Done | Fails | Crashes

  /** The outcome of every step of one write, decided by the host. */
  datatype Host = Host(
    inspect: Act,       // listing the target and its directory
    makeDir: Act,
    create: Act,        // creating the temporary file
    write: Act,
    written: Bytes,     // what reached the file when writing did not finish
    flush: Act,         // sync, close, cancellation before the rename
    rename: Act,
    confirm: Act,       // cancellation after the rename, directory sync, posture of the stored file
    tempStays: bool,    // removing the temporary file fails or is not reached
    targetStays: bool,  // removing the target fails or is not reached
    suffix: string)

  datatype Request = Request(slot: Slot, schemaVersion: string, meta: string, valid: bool, body: Option<Bytes>)

  datatype Outcome = Stored(ref: Ref) | Failed | Crashed

  class Store {
    const f: Format
    var disk: Disk

    constructor (f: Format)
      requires f.Faithful()
      ensures this.f == f && disk == map[] && Sound(f, disk)
    {
      this.f := f;
      disk := map[];
    }

    /** `body` is the validated, redacted, canonical content, or None where one of these failed. */
    method Put(req: Request, h: Host) returns (out: Outcome)
      requires f.Faithful() && Sound(f, disk)
      modifies this
      ensures Sound(f, disk) && Keeps(old(disk), disk)
      ensures out.Stored? ==>
        && req.body.Some? && out.ref.slot == req.slot && req.slot.revision >= 1
        && Readable(f, disk, out.ref) && f.parse(disk[req.slot][out.ref.hash]).value.content == req.body.value
        && Contents(FilesOf(old(disk), req.slot)) == map[]
      ensures out.Failed? ==> (SameContents(old(disk), disk) <==> !(h.confirm.Fails? && h.targetStays && Installs(f, old(disk), req, h)))
      ensures out.Crashed? ==> (SameContents(old(disk), disk) <==> !Installs(f, old(disk), req, h))
      ensures out.Stored? <==> Installs(f, old(disk), req, h) && h.confirm.Done?
      ensures out.Stored? ==> out.ref.hash == EnvelopeOf(f, req).sha
    {
      if !req.valid || req.slot.revision < 1 || req.body.None? || !f.supported(req.slot.typ, req.schemaVersion) {
        Untouched(f, disk);
        return Failed;
      }
      var hash := f.digest(req.schemaVersion, req.slot.typ, req.slot.revision, req.body.value);
      out := WriteArtifact(req, hash, h);
    }

    /**
    Checks, then directory, temporary file, rename and confirmation. Whatever happens at
    whichever step, the disk changes by an `Effect` of the installed data.
    */
    method WriteArtifact(req: Request, hash: string, h: Host) returns (out: Outcome)
      requires f.Faithful() && Sound(f, disk)
      requires req.valid && req.slot.revision >= 1 && req.body.Some? && f.supported(req.slot.typ, req.schemaVersion)
      requires hash == f.digest(req.schemaVersion, req.slot.typ, req.slot.revision, req.body.value)
      modifies this
      ensures Sound(f, disk) && Keeps(old(disk), disk)
      ensures out.Stored? ==>
        && out.ref == Ref(req.slot, hash)
        && Readable(f, disk, out.ref) && f.parse(disk[req.slot][hash]).value.content == req.body.value
        && Contents(FilesOf(old(disk), req.slot)) == map[]
      ensures out.Failed? ==> (SameContents(old(disk), disk) <==> !(h.confirm.Fails? && h.targetStays && Installs(f, old(disk), req, h)))
      ensures out.Crashed? ==> (SameContents(old(disk), disk) <==> !Installs(f, old(disk), req, h))
      ensures out.Stored? <==> Installs(f, old(disk), req, h) && h.confirm.Done?
    {
      hide Sound, Keeps, SameContents, Readable, Whole, Contents, ContentName;
      var slot := req.slot;
      var d := disk;
      Untouched(f, d);
      if h.inspect.Crashes? {
        return Crashed;
      }
      if h.inspect.Fails? || Contents(FilesOf(disk, slot)) != map[] {
        return Failed;
      }
      if !h.makeDir.Done? {
        return Stop(h.makeDir);
      }
      var files := FilesOf(disk, slot);
      disk := d[slot := files];
      LeavesContents(f, d, slot, files);
      var data := f.marshal(EnvelopeOf(f, req));
      if |data| > MaxFileBytes {
        return Failed;
      }
      var temp := "." + hash + ".tmp." + h.suffix;
      if temp in files || !h.create.Done? {
        return Stop(if temp in files then Fails else h.create);
      }
      TempIsNoContent(files, temp, h.written);
      TempIsNoContent(files, temp, data);
      disk := d[slot := files[temp := []]];
      if !h.write.Done? || !h.flush.Done? {
        disk := d[slot := files[temp := h.written]];
        LeavesContents(f, d, slot, files[temp := h.written]);
        if !h.tempStays {
          disk := d[slot := files];
        }
        return Stop(if h.write.Done? then h.flush else h.write);
      }
      disk := d[slot := files[temp := data]];
      LeavesContents(f, d, slot, files[temp := data]);
      if !h.rename.Done? {
        if !h.tempStays {
          disk := d[slot := files];
        }
        return Stop(h.rename);
      }
      disk := d[slot := files[hash := data]];
      InstallsContents(f, d, req, files, hash, data);
      if !h.confirm.Done? {
        if h.confirm.Fails? && !h.targetStays {
          disk := d[slot := files];
        }
        return Stop(h.confirm);
      }
      return Stored(Ref(slot, hash));
    }

    /** Returns the content exactly of a whole file under the reference's own name. */
    method Get(ref: Ref) returns (content: Option<Bytes>)
      ensures content.Some? <==> ref.slot.revision >= 1 && Readable(f, disk, ref)
      ensures content.Some? ==> content.value == f.parse(disk[ref.slot][ref.hash]).value.content
    {
      if ref.slot.revision < 1 || !ContentName(ref.hash) {
        return None;
      }
      if ref.slot !in disk || ref.hash !in disk[ref.slot] {
        return None;
      }
      var data := disk[ref.slot][ref.hash];
      if !Whole(f, ref.slot, ref.hash, data) {
        return None;
      }
      return Some(f.parse(data).value.content);
    }

    /** A revision resolves to its content file, whichever way its directory is listed. */
    method ResolveRevision(slot: Slot, list: Slot -> seq<string>) returns (ref: Option<Ref>)
      requires slot in disk ==> Lists(list(slot), disk[slot])
      ensures ref.Some? <==> slot in disk && exists n :: Contents(disk[slot]).Keys == {n} && Whole(f, slot, n, disk[slot][n])
      ensures Sound(f, disk) ==> (ref.Some? <==> slot in disk && Contents(disk[slot]) != map[])
      ensures ref.Some? ==> ref.value.slot == slot && Readable(f, disk, ref.value)
    {
      if slot !in disk {
        return None;
      }
      ghost var contents := Contents(disk[slot]);
      if Sound(f, disk) && contents != map[] {
        assert SoundFiles(f, slot, disk[slot]);
        var n :| n in contents;
        assert contents.Keys == {n};
      }
      var hash := RevisionContentHash(list(slot), disk[slot]);
      if hash.None? {
        return None;
      }
      assert hash.value in contents && forall n :: contents.Keys == {n} ==> n == hash.value;
      if !Whole(f, slot, hash.value, disk[slot][hash.value]) {
        return None;
      }
      return Some(Ref(slot, hash.value));
    }

    /**
    Revision 0 asks for the newest directory, and only that one: it resolves exactly when the
    newest directory holds content, so a directory a failed write left empty hides the
    revisions below it.
    */
    method ResolveLatest(workflow: string, typ: string, revisions: seq<int>, list: Slot -> seq<string>) returns (ref: Option<Ref>)
      requires Sound(f, disk) && forall s <- disk :: Lists(list(s), disk[s])
      requires forall r :: r in revisions <==> Slot(workflow, typ, r) in disk
      ensures ref.Some? <==> exists r | r in revisions :: r > 0 && Newest(revisions, r) && Contents(disk[Slot(workflow, typ, r)]) != map[]
      ensures ref.Some? ==> Newest(revisions, ref.value.slot.revision) && Readable(f, disk, ref.value)
    {
      var max := 0;
      for i := 0 to |revisions|
        invariant max >= 0 && (max > 0 ==> max in revisions)
        invariant forall k :: 0 <= k < i ==> revisions[k] <= max
      {
        if revisions[i] > max {
          max := revisions[i];
        }
      }
      if max == 0 {
        return None;
      }
      assert forall r <- revisions :: Newest(revisions, r) ==> r == max;
      ref := ResolveRevision(Slot(workflow, typ, max), list);
    }

    /** What was stored stays readable, whatever writes, failures and crashes follow. */
    method PutThenOthers(req: Request, h: Host, others: seq<(Request, Host)>) returns (out: Outcome, content: Option<Bytes>)
      requires f.Faithful() && Sound(f, disk)
      modifies this
      ensures Sound(f, disk) && Keeps(old(disk), disk)
      ensures out.Stored? ==> content == req.body
    {
      hide Sound, Keeps, Whole, Contents, Installs, SameContents;
      out := Put(req, h);
      ghost var stored := disk;
      KeepsReflexive(stored);
      for i := 0 to |others|
        invariant Sound(f, disk) && Keeps(stored, disk)
      {
        ghost var before := disk;
        var _ := Put(others[i].0, others[i].1);
        KeepsTransitive(stored, before, disk);
      }
      KeepsTransitive(old(disk), stored, disk);
      if out.Stored? {
        StaysReadable(f, stored, disk, out.ref);
        content := Get(out.ref);
      } else {
        content := None;
      }
    }
  }

  /** What can be read is authentic: canonical bytes of an envelope of that very slot, whose digest is the name. */
  lemma ReadableIsAuthentic(f: Format, d: Disk, ref: Ref)
    requires Readable(f, d, ref)
    ensures ref.slot in d && ref.hash in d[ref.slot] && |ref.hash| == 64
    ensures
      var data := d[ref.slot][ref.hash];
      && |data| <= 8 * 1024 * 1024 && f.parse(data).Some?
      && var e := f.parse(data).value;
        && f.marshal(e) == data && f.supported(e.typ, e.schemaVersion)
        && e.workflow == ref.slot.workflow && e.typ == ref.slot.typ && e.revision == ref.slot.revision
        && f.digest(e.schemaVersion, e.typ, e.revision, e.content) == ref.hash == e.sha
  {
  }

  lemma KeepsReflexive(d: Disk)
    ensures Keeps(d, d)
  {
  }

  lemma KeepsTransitive(d: Disk, e: Disk, g: Disk)
    requires Keeps(d, e) && Keeps(e, g)
    ensures Keeps(d, g)
  {
  }

  lemma StaysReadable(f: Format, d: Disk, e: Disk, ref: Ref)
    requires Keeps(d, e) && Readable(f, d, ref)
    ensures Readable(f, e, ref) && e[ref.slot][ref.hash] == d[ref.slot][ref.hash]
  {
  }

  ghost predicate Newest(revisions: seq<int>, r: int) {
    r in revisions && forall q <- revisions :: q <= r
  }

  /** A directory listing: every file name once, in any order. */
  ghost predicate Lists(names: seq<string>, files: map<string, Bytes>) {
    && (forall n :: n in names <==> n in files)
    && (forall i, j :: 0 <= i < j < |names| ==> names[i] != names[j])
  }

  /** The one content file of a directory; none, or more than one, is refused. */
  method RevisionContentHash(names: seq<string>, ghost files: map<string, Bytes>) returns (hash: Option<string>)
    requires Lists(names, files)
    ensures hash.Some? <==> exists n :: Contents(files).Keys == {n}
    ensures hash.Some? ==> Contents(files).Keys == {hash.value}
  {
    var found: Option<string> := None;
    for i := 0 to |names|
      invariant found.None? ==> forall k :: 0 <= k < i ==> !ContentName(names[k])
      invariant found.Some? ==> ContentName(found.value) && found.value in names[..i]
      invariant found.Some? ==> forall k :: 0 <= k < i && ContentName(names[k]) ==> names[k] == found.value
    {
      if ContentName(names[i]) {
        if found.Some? {
          assert names[i] in Contents(files) && found.value in Contents(files) && names[i] != found.value;
          return None;
        }
        found := Some(names[i]);
      }
    }
    if found.Some? {
      assert Contents(files).Keys == {found.value};
    } else {
      assert Contents(files).Keys == {};
    }
    return found;
  }

  lemma Untouched(f: Format, d: Disk)
    requires Sound(f, d)
    ensures Keeps(d, d) && SameContents(d, d)
  {
  }

  lemma TempIsNoContent(files: map<string, Bytes>, temp: string, data: Bytes)
    requires temp != "" && temp[0] == '.' && temp !in files
    ensures Contents(files[temp := data]) == Contents(files)
  {
    assert temp[0] in temp;
    assert !ContentName(temp);
  }

  lemma LeavesContents(f: Format, d: Disk, slot: Slot, files: map<string, Bytes>)
    requires Sound(f, d) && Contents(files) == Contents(FilesOf(d, slot))
    ensures Sound(f, d[slot := files]) && Keeps(d, d[slot := files]) && SameContents(d, d[slot := files])
  {
    var e := d[slot := files];
    hide Whole;
    assert forall n :: n in Contents(files) ==> Contents(files)[n] == files[n];
    if slot in d {
      assert SoundFiles(f, slot, d[slot]);
      assert forall n :: n in Contents(d[slot]) ==> Contents(d[slot])[n] == d[slot][n];
    }
    assert SoundFiles(f, slot, files);
    assert forall s <- d :: SoundFiles(f, s, d[s]);
  }

  lemma InstallsContents(f: Format, d: Disk, req: Request, files: map<string, Bytes>, hash: string, data: Bytes)
    requires f.Faithful() && Sound(f, d) && req.body.Some? && f.supported(req.slot.typ, req.schemaVersion)
    requires files == FilesOf(d, req.slot) && Contents(files) == map[]
    requires hash == EnvelopeOf(f, req).sha && data == f.marshal(EnvelopeOf(f, req)) && |data| <= MaxFileBytes
    ensures
      var e := d[req.slot := files[hash := data]];
      && Sound(f, e) && Keeps(d, e) && !SameContents(d, e) && Readable(f, e, Ref(req.slot, hash))
      && f.parse(data) == Some(EnvelopeOf(f, req))
  {
    var e := d[req.slot := files[hash := data]];
    assert Whole(f, req.slot, hash, data);
    hide Whole;
    var after := files[hash := data];
    assert Contents(after) == map[hash := data] by {
      forall n | n in Contents(after) ensures n == hash { assert n != hash ==> n in Contents(files); }
    }
    EffectSound(f, d, req.slot, hash, data, e);
    assert hash in Contents(e[req.slot]) && hash !in Contents(FilesOf(d, req.slot));
  }

  function Stop(a: Act): Outcome {
    if a.Crashes? then Crashed else Failed
  }

  function EnvelopeOf(f: Format, req: Request): Envelope
    requires req.body.Some?
  {
    var hash := f.digest(req.schemaVersion, req.slot.typ, req.slot.revision, req.body.value);
    Envelope(req.schemaVersion, req.slot.typ, req.slot.workflow, req.slot.revision, req.meta, hash, req.body.value)
  }

  function TempName(f: Format, req: Request, h: Host): string
    requires req.body.Some?
  {
    "." + EnvelopeOf(f, req).sha + ".tmp." + h.suffix
  }

  /** The write gets as far as the rename. */
  ghost predicate Installs(f: Format, d: Disk, req: Request, h: Host) {
    && req.valid && req.slot.revision >= 1 && req.body.Some? && f.supported(req.slot.typ, req.schemaVersion)
    && h.inspect.Done? && Contents(FilesOf(d, req.slot)) == map[]
    && h.makeDir.Done? && |f.marshal(EnvelopeOf(f, req))| <= MaxFileBytes
    && TempName(f, req, h) !in FilesOf(d, req.slot) && h.create.Done?
    && h.write.Done? && h.flush.Done? && h.rename.Done?
  }

  /** The reference names a whole content file. */
  ghost predicate Readable(f: Format, d: Disk, ref: Ref) {
    ref.slot in d && ref.hash in Contents(d[ref.slot]) && Whole(f, ref.slot, ref.hash, d[ref.slot][ref.hash])
  }
}
