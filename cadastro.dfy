/** The enrollment program `cadastro_app.py`: an earlier revision that keeps both tables next to
    the scripts, keys them by the CPF exactly as typed, numbers its photos, takes any number of
    them, and never touches the trained model. */
module Cadastro {
  import opened Wrappers
  import opened Dict
  import opened Tables
  import opened Validation
  import opened Imaging
  import opened Camera
  import opened Files

  const TableLayout: Layout := BaseDir

  /** `salvar_dados_json` in this revision: writes the file, or changes nothing when writing fails. */
  function Saved(files: Files, p: Path, c: Content, ok: bool): Files {
    if ok then files[p := c] else files
  }

  method SaveJson(disk: Disk, p: Path, c: Content, ok: bool) returns (saved: bool)
    modifies disk
    ensures saved == ok && disk.files == Saved(old(disk.files), p, c, ok)
  {
    saved := ok;
    if ok {
      disk.Write(p, c);
    }
  }

  // ---------------------------------------------------------------------------------------------
  // garantir_diretorios_e_arquivos

  /** The file system once `faces/` and both tables exist: a missing table starts as `{}`, and
      whatever already existed is left as it was. */
  function Ensured(files: Files): (r: Files)
    ensures FacesDir in r && TierFile(TableLayout) in r && UserFile(TableLayout) in r
    ensures forall q :: q in files ==> q in r && r[q] == files[q]
    ensures forall q :: q in r && q !in files ==> q in {FacesDir, TierFile(TableLayout), UserFile(TableLayout)}
    ensures TierFile(TableLayout) !in files ==> LoadTiers(r, TierFile(TableLayout)) == []
    ensures UserFile(TableLayout) !in files ==> LoadUsers(r, UserFile(TableLayout)) == []
  {
    var f1 := if FacesDir in files then files else WithDirs(files, FacesDir);
    var f2 := if TierFile(TableLayout) in f1 then f1 else f1[TierFile(TableLayout) := TierData([])];
    if UserFile(TableLayout) in f2 then f2 else f2[UserFile(TableLayout) := UserData([])]
  }

  method EnsureLayout(disk: Disk)
    modifies disk
    ensures disk.files == Ensured(old(disk.files))
  {
    if FacesDir !in disk.files {
      disk.MakeDirs(FacesDir);
    }
    if TierFile(TableLayout) !in disk.files {
      disk.Write(TierFile(TableLayout), TierData([]));
    }
    if UserFile(TableLayout) !in disk.files {
      disk.Write(UserFile(TableLayout), UserData([]));
    }
  }

  // ---------------------------------------------------------------------------------------------
  // tirar_e_salvar_fotos

  /** `f"{id_unico}_{k}.jpg"`. */
  function NumberedName(id: string, k: nat): string {
    id + "_" + Decimal(k) + ".jpg"
  }

  /** The photos the loop saves from `events`, `taken` photos having been saved before: every 's'
      press on a frame with a face saves the whole frame, until a read failure, 'q', or the end of
      the events. */
  function Numbered(events: seq<CaptureEvent>, id: string, taken: nat): seq<(string, Image)>
    decreases |events|
  {
    if events == [] || events[0].ReadFailed? || events[0].key == PressQ then []
    else if events[0].key == PressS && |events[0].faces| > 0 then
      [(NumberedName(id, taken), events[0].frame)] + Numbered(events[1..], id, taken + 1)
    else Numbered(events[1..], id, taken)
  }

  /** Photo `k` of a session that starts at `taken` is named with the number `taken + k`. */
  lemma {:induction false} NumberedNames(events: seq<CaptureEvent>, id: string, taken: nat)
    ensures forall k :: 0 <= k < |Numbered(events, id, taken)| ==> Numbered(events, id, taken)[k].0 == NumberedName(id, taken + k)
  {
    if !(events == [] || events[0].ReadFailed? || events[0].key == PressQ) {
      if events[0].key == PressS && |events[0].faces| > 0 {
        NumberedNames(events[1..], id, taken + 1);
        var r := Numbered(events, id, taken);
        forall k | 0 <= k < |r| ensures r[k].0 == NumberedName(id, taken + k) {
          if k > 0 {
            assert r[k] == Numbered(events[1..], id, taken + 1)[k - 1];
          }
        }
      } else {
        NumberedNames(events[1..], id, taken);
      }
    }
  }

  /** Different numbers give different file names. */
  lemma NumberedNameInjective(id: string, j: nat, k: nat)
    requires NumberedName(id, j) == NumberedName(id, k)
    ensures j == k
  {
    var a := NumberedName(id, j);
    var p := |id| + 1;
    assert a[p..|a| - 4] == Decimal(j);
    assert NumberedName(id, k)[p..|a| - 4] == Decimal(k);
    DecimalValue(j);
    DecimalValue(k);
  }

  /** A session never writes two photos under the same name. */
  lemma NumberedDistinct(events: seq<CaptureEvent>, id: string, taken: nat)
    ensures forall j, k :: 0 <= j < k < |Numbered(events, id, taken)| ==>
      Numbered(events, id, taken)[j].0 != Numbered(events, id, taken)[k].0
  {
    NumberedNames(events, id, taken);
    forall j, k | 0 <= j < k < |Numbered(events, id, taken)|
      ensures Numbered(events, id, taken)[j].0 != Numbered(events, id, taken)[k].0
    {
      if NumberedName(id, taken + j) == NumberedName(id, taken + k) {
        NumberedNameInjective(id, taken + j, taken + k);
      }
    }
  }

  /** One turn of the loop on an event that neither fails nor quits moves the invariant forward. */
  lemma NumberedAdvance(events: seq<CaptureEvent>, id: string, taken: nat, i: nat, shots: seq<(string, Image)>)
    requires i < |events| && !events[i].ReadFailed? && events[i].key != PressQ
    requires shots + Numbered(events[i..], id, taken) == Numbered(events, id, 0)
    ensures events[i].key == PressS && |events[i].faces| > 0 ==>
      (shots + [(NumberedName(id, taken), events[i].frame)]) + Numbered(events[i + 1..], id, taken + 1) == Numbered(events, id, 0)
    ensures !(events[i].key == PressS && |events[i].faces| > 0) ==>
      shots + Numbered(events[i + 1..], id, taken) == Numbered(events, id, 0)
  {
    assert events[i..][0] == events[i];
    assert events[i..][1..] == events[i + 1..];
    if events[i].key == PressS && |events[i].faces| > 0 {
      var shot := (NumberedName(id, taken), events[i].frame);
      var rest := Numbered(events[i + 1..], id, taken + 1);
      assert shots + ([shot] + rest) == (shots + [shot]) + rest;
    }
  }

  /** The capture loop, once the camera is open. */
  method CaptureLoop(disk: Disk, id: string, events: seq<CaptureEvent>) returns (count: nat)
    modifies disk
    ensures count == |Numbered(events, id, 0)|
    ensures disk.files == WriteShots(old(disk.files), id, Numbered(events, id, 0))
  {
    ghost var start := disk.files;
    ghost var shots: seq<(string, Image)> := [];
    count := 0;
    var i := 0;
    assert events[0..] == events;
    while i < |events|
      invariant 0 <= i <= |events|
      invariant count == |shots|
      invariant shots + Numbered(events[i..], id, count) == Numbered(events, id, 0)
      invariant disk.files == WriteShots(start, id, shots)
    {
      var e := events[i];
      assert events[i..][0] == e;
      if e.ReadFailed? {
        break;
      }
      if e.key != PressQ {
        NumberedAdvance(events, id, count, i, shots);
      }
      if e.key == PressS && |e.faces| > 0 {
        var name := NumberedName(id, count);
        disk.Write(PhotoFile(id, name), Picture(e.frame));
        WriteShotsSnoc(start, id, shots, (name, e.frame));
        shots := shots + [(name, e.frame)];
        count := count + 1;
      }
      if e.key == PressQ {
        break;
      }
      i := i + 1;
    }
    assert i == |events| ==> Numbered(events[i..], id, count) == [];
    assert shots == Numbered(events, id, 0);
  }

  /** `tirar_e_salvar_fotos(id_unico)`: refuses an existing folder (`FileExistsError`) and returns 0;
      otherwise creates it, and when the camera opens saves photos until a read failure or 'q'. */
  method TakePhotos(disk: Disk, id: string, cameraOpens: bool, events: seq<CaptureEvent>) returns (count: nat)
    modifies disk
    ensures PersonDir(id) in old(disk.files) ==> count == 0 && disk.files == old(disk.files)
    ensures PersonDir(id) !in old(disk.files) ==>
      var shots := if cameraOpens then Numbered(events, id, 0) else [];
      count == |shots| && disk.files == WriteShots(WithDirs(old(disk.files), PersonDir(id)), id, shots)
  {
    if PersonDir(id) in disk.files {
      return 0;
    }
    disk.MakeDirs(PersonDir(id));
    if !cameraOpens {
      assert disk.files == WriteShots(disk.files, id, []);
      return 0;
    }
    count := CaptureLoop(disk, id, events);
  }

  // ---------------------------------------------------------------------------------------------
  // salvar_dados_pessoa

  datatype Rejection = EmptyField | BadCpf | BadLevel | AlreadyEnrolled

  /** The checks before photos are taken: all three fields filled, the CPF valid once cleaned, the
      tier a number 1..3, and the CPF, as typed, not yet a key of the identity table. */
  function Screen(name: string, typedCpf: string, typedLevel: string, users: UserTable)
    : (r: Result<string, Rejection>)
    ensures r.Success? <==> (name != "" && typedCpf != "" && typedLevel != ""
      && CheckCpf(typedCpf).Some? && ParseLevel(typedLevel).Some? && typedCpf !in Keys(users))
    ensures r.Success? ==> r.value == LevelName(ParseLevel(typedLevel).value)
    ensures r == Failure(AlreadyEnrolled) <==> (name != "" && typedCpf != "" && typedLevel != ""
      && CheckCpf(typedCpf).Some? && ParseLevel(typedLevel).Some? && typedCpf in Keys(users))
  {
    if name == "" || typedCpf == "" || typedLevel == "" then Failure(EmptyField)
    else if CheckCpf(typedCpf).None? then Failure(BadCpf)
    else if ParseLevel(typedLevel).None? then Failure(BadLevel)
    else if typedCpf in Keys(users) then Failure(AlreadyEnrolled)
    else Success(LevelName(ParseLevel(typedLevel).value))
  }

  /** Because the duplicate check uses the typed spelling, a CPF stored in its clean form can be
      enrolled again in its printed form. */
  lemma PunctuatedSpellingNotDuplicate(name: string, d: string, typedLevel: string, users: UserTable)
    requires name != "" && ValidCpf(d) && ParseLevel(typedLevel).Some?
    requires forall k :: k in Keys(users) ==> ValidCpf(k)
    ensures Screen(name, Punctuated(d), typedLevel, users).Success?
  {
    PunctuatedAccepted(d);
    PunctuatedDiffers(d);
    assert typedLevel != "";
  }

  datatype EnrollOutcome = EnrollRejected(why: Rejection) | NoPhotos | MalformedTier | Enrolled(saved: bool)

  /** `salvar_dados_pessoa`. `freshId` stands for the new `uuid4`. */
  method Enroll(disk: Disk, name: string, typedCpf: string, typedLevel: string, freshId: string,
                cameraOpens: bool, events: seq<CaptureEvent>, tierSaveOk: bool, userSaveOk: bool)
    returns (outcome: EnrollOutcome)
    modifies disk
    ensures var tiers := LoadTiers(old(disk.files), TierFile(TableLayout));
      var users := LoadUsers(old(disk.files), UserFile(TableLayout));
      match Screen(name, typedCpf, typedLevel, users)
      case Failure(why) => outcome == EnrollRejected(why) && disk.files == old(disk.files)
      case Success(level) => (
        var isNew := PersonDir(freshId) !in old(disk.files);
        var shots := if isNew && cameraOpens then Numbered(events, freshId, 0) else [];
        var afterPhotos := if isNew then WriteShots(WithDirs(old(disk.files), PersonDir(freshId)), freshId, shots) else old(disk.files);
        if shots == [] then outcome == NoPhotos && disk.files == afterPhotos
        else if AddMemberOnce(tiers, level, typedCpf).None? then outcome == MalformedTier && disk.files == afterPhotos
        else
          var written := Saved(afterPhotos, TierFile(TableLayout), TierData(AddMemberOnce(tiers, level, typedCpf).value), tierSaveOk);
          outcome == Enrolled(tierSaveOk && userSaveOk) &&
          disk.files == (if tierSaveOk then Saved(written, UserFile(TableLayout), UserData(Put(users, typedCpf, Person(name, freshId))), userSaveOk) else written))
  {
    var users0 := LoadUsers(disk.files, UserFile(TableLayout));
    var screen := Screen(name, typedCpf, typedLevel, users0);
    if screen.Failure? {
      return EnrollRejected(screen.error);
    }
    var tiers := LoadTiers(disk.files, TierFile(TableLayout));
    var users := LoadUsers(disk.files, UserFile(TableLayout));
    var count := TakePhotos(disk, freshId, cameraOpens, events);
    if count == 0 {
      return NoPhotos;
    }
    var tiers' := AddMemberOnce(tiers, screen.value, typedCpf);
    if tiers'.None? {
      return MalformedTier;
    }
    var users' := Put(users, typedCpf, Person(name, freshId));
    var ok1 := SaveJson(disk, TierFile(TableLayout), TierData(tiers'.value), tierSaveOk);
    if !ok1 {
      return Enrolled(false);
    }
    var ok2 := SaveJson(disk, UserFile(TableLayout), UserData(users'), userSaveOk);
    outcome := Enrolled(ok2);
  }
}
