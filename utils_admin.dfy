/** The administration module `utils_admin.py`: image quality and augmentation, model
    invalidation, the photo-capture loop, and the enroll / add-photos / delete workflows over the
    tables in `Usuarios_Cadastrados/`. */
module UtilsAdmin {
  import opened Wrappers
  import opened Dict
  import opened Tables
  import opened Validation
  import opened Imaging
  import opened Camera
  import opened Files

  // ---------------------------------------------------------------------------------------------
  // validar_qualidade_imagem

  function Sum(s: seq<int>): int {
    if s == [] then 0 else Sum(s[..|s| - 1]) + s[|s| - 1]
  }

  function SumOfSquares(s: seq<int>): int {
    if s == [] then 0 else SumOfSquares(s[..|s| - 1]) + s[|s| - 1] * s[|s| - 1]
  }

  /** The quality check on a grey image with `n` pixels of sum `S` and sum of squares `Q`, in exact
      integer form: the mean `S/n` lies in [40, 200], the variance `(n*Q - S*S)/n^2` is at least
      15^2, and the detector finds a face. For an empty image numpy's mean and deviation are NaN,
      every comparison with NaN is false, and only the face test is left. */
  predicate QualityOk(pixels: seq<int>, faces: nat) {
    var n := |pixels|;
    var s := Sum(pixels);
    && (n == 0 || (s >= 40 * n && s <= 200 * n && n * SumOfSquares(pixels) - s * s >= 225 * n * n))
    && faces > 0
  }

  function Mean(pixels: seq<int>): real
    requires |pixels| > 0
  {
    Sum(pixels) as real / |pixels| as real
  }

  /** The population variance numpy's `std` is the square root of. */
  function Variance(pixels: seq<int>): real
    requires |pixels| > 0
  {
    SumOfSquares(pixels) as real / |pixels| as real - Mean(pixels) * Mean(pixels)
  }

  lemma ScaledLess(a: int, b: int, n: int)
    requires n > 0
    ensures a as real / n as real < b as real <==> a < b * n
  {
    var q := a as real / n as real;
    assert q * n as real == a as real;
    if a < b * n {
      assert q * n as real < b as real * n as real;
    } else {
      assert q * n as real >= b as real * n as real;
    }
  }

  lemma ScaledGreater(a: int, b: int, n: int)
    requires n > 0
    ensures a as real / n as real > b as real <==> a > b * n
  {
    ScaledLess(-a, -b, n);
    assert (-a) as real / n as real == -(a as real / n as real);
  }

  lemma VarianceScaled(pixels: seq<int>)
    requires |pixels| > 0
    ensures Variance(pixels) * (|pixels| as real * |pixels| as real) ==
      (|pixels| * SumOfSquares(pixels) - Sum(pixels) * Sum(pixels)) as real
  {
    var n := |pixels| as real;
    var s := Sum(pixels) as real;
    var q := SumOfSquares(pixels) as real;
    var a := q / n;
    var b := s / n;
    assert a * n == q;
    assert b * n == s;
    calc {
      Variance(pixels) * (n * n);
      (a - b * b) * (n * n);
      (a * n) * n - (b * n) * (b * n);
      q * n - s * s;
    }
  }

  lemma ScaledBelow(v: real, d: int, k: int)
    requires k > 0 && v * k as real == d as real
    ensures v < 225.0 <==> d < 225 * k
  {
    var kr := k as real;
    var gap := 225.0 - v;
    assert gap * kr == 225.0 * kr - v * kr;
    assert (225 * k) as real == 225.0 * kr;
    if v < 225.0 {
      assert gap * kr > 0.0;
    } else {
      assert gap * kr <= 0.0;
    }
  }

  lemma VarianceForm(pixels: seq<int>)
    requires |pixels| > 0
    ensures Variance(pixels) < 225.0 <==> |pixels| * SumOfSquares(pixels) - Sum(pixels) * Sum(pixels) < 225 * |pixels| * |pixels|
  {
    var n := |pixels|;
    VarianceScaled(pixels);
    assert (n * n) as real == n as real * n as real;
    ScaledBelow(Variance(pixels), n * SumOfSquares(pixels) - Sum(pixels) * Sum(pixels), n * n);
  }

  /** The integer form says what the source's floating-point form says: reject when the mean is
      below 40 or above 200, when the deviation is below 15 (the variance below 225), or when no
      face is found. */
  lemma QualityOkMeaning(pixels: seq<int>, faces: nat)
    requires |pixels| > 0
    ensures QualityOk(pixels, faces) <==>
      !(Mean(pixels) < 40.0 || Mean(pixels) > 200.0) && !(Variance(pixels) < 225.0) && faces > 0
  {
    ScaledLess(Sum(pixels), 40, |pixels|);
    ScaledGreater(Sum(pixels), 200, |pixels|);
    VarianceForm(pixels);
  }

  // ---------------------------------------------------------------------------------------------
  // aplicar_data_augmentation

  const RotationAngles: seq<int> := [-3, 3]

  /** The training variants of one face: the image itself, two slight rotations, one brighter
      (alpha 1.1) and one lower-contrast (alpha 0.95) copy, and one with light Gaussian noise. All
      keep the size of the input. */
  function Augmented(img: Image): (r: seq<Image>)
    ensures |r| == 6 && r[0] == img
    ensures forall k :: 0 <= k < |r| ==> Width(r[k]) == Width(img) && Height(r[k]) == Height(img)
  {
    [img, Rotate(img, -3), Rotate(img, 3), ScaleAbs(img, 110), ScaleAbs(img, 95), AddNoise(img, 5)]
  }

  /** `aplicar_data_augmentation`: builds the list by appending, one rotation per angle. */
  method Augment(img: Image) returns (r: seq<Image>)
    ensures r == Augmented(img)
  {
    r := [img];
    for i := 0 to |RotationAngles|
      invariant r == [img] + seq(i, k requires 0 <= k < i => Rotate(img, RotationAngles[k]))
    {
      r := r + [Rotate(img, RotationAngles[i])];
    }
    r := r + [ScaleAbs(img, 110)];
    r := r + [ScaleAbs(img, 95)];
    r := r + [AddNoise(img, 5)];
  }

  // ---------------------------------------------------------------------------------------------
  // invalidar_modelo_treinado and salvar_dados_json

  /** The file system without the persisted model and its id map; nothing else changes. */
  function Invalidated(files: Files): (r: Files)
    ensures ModelFile !in r && IdMapFile !in r
    ensures forall q :: q != ModelFile && q != IdMapFile ==> (q in r <==> q in files)
    ensures forall q :: q in r ==> r[q] == files[q]
  {
    files - {ModelFile, IdMapFile}
  }

  /** Invalidating twice is invalidating once. */
  lemma InvalidatedIdempotent(files: Files)
    ensures Invalidated(Invalidated(files)) == Invalidated(files)
  {
    assert Invalidated(Invalidated(files)).Keys == Invalidated(files).Keys;
  }

  /** `invalidar_modelo_treinado`: removes each of the two model files that exists. */
  method InvalidateModel(disk: Disk)
    modifies disk
    ensures disk.files == Invalidated(old(disk.files))
  {
    if ModelFile in disk.files {
      disk.Remove(ModelFile);
    }
    if IdMapFile in disk.files {
      disk.Remove(IdMapFile);
    }
    assert disk.files.Keys == Invalidated(old(disk.files)).Keys;
  }

  /** The file system after `salvar_dados_json(p, c)` in this revision: it creates
      `Usuarios_Cadastrados/` and writes `p`, or, when writing fails, changes nothing. */
  function Saved(files: Files, p: Path, c: Content, ok: bool): Files {
    if ok then WithDirs(files, UsersDir)[p := c] else files
  }

  /** `salvar_dados_json`; `ok` says whether the write succeeds. */
  method SaveJson(disk: Disk, p: Path, c: Content, ok: bool) returns (saved: bool)
    modifies disk
    ensures saved == ok
    ensures disk.files == Saved(old(disk.files), p, c, ok)
  {
    saved := ok;
    if ok {
      disk.MakeDirs(UsersDir);
      disk.Write(p, c);
    }
  }

  // ---------------------------------------------------------------------------------------------
  // tirar_e_salvar_fotos

  const MaxPhotos: nat := 10

  /** `f"{id_unico}_{token}.jpg"`. */
  function PhotoName(id: string, token: string): string {
    id + "_" + token + ".jpg"
  }

  /** What one camera event makes the loop save: the crop of the largest face, when 's' was
      pressed, a face was found and the grey crop passes the quality check. */
  function ShotOf(e: CaptureEvent, id: string): (r: Option<(string, Image)>)
    ensures r.Some? <==> e.Shown? && e.key == PressS && |e.faces| > 0 && QualityOk(e.cropGray, e.cropFaces)
    ensures r.Some? ==> r.value.0 == PhotoName(id, e.token)
    ensures r.Some? ==> r.value.1 == Crop(e.frame, Largest(e.faces))
  {
    if e.Shown? && e.key == PressS && |e.faces| > 0 && QualityOk(e.cropGray, e.cropFaces) then
      Some((PhotoName(id, e.token), Crop(e.frame, Largest(e.faces))))
    else None
  }

  /** The photos the loop saves from `events`, with `taken` photos already saved: it stops at ten
      photos, at a read failure, at 'q', or when the events run out. */
  function Captured(events: seq<CaptureEvent>, id: string, taken: nat): seq<(string, Image)>
    decreases |events|
  {
    if taken >= MaxPhotos || events == [] || events[0].ReadFailed? || events[0].key == PressQ then []
    else
      match ShotOf(events[0], id)
      case Some(shot) => [shot] + Captured(events[1..], id, taken + 1)
      case None => Captured(events[1..], id, taken)
  }

  /** The loop never saves more than `max_fotos` photos. */
  lemma {:induction false} CapturedBound(events: seq<CaptureEvent>, id: string, taken: nat)
    requires taken <= MaxPhotos
    ensures |Captured(events, id, taken)| <= MaxPhotos - taken
  {
    if !(taken >= MaxPhotos || events == [] || events[0].ReadFailed? || events[0].key == PressQ) {
      if ShotOf(events[0], id).Some? {
        CapturedBound(events[1..], id, taken + 1);
      } else {
        CapturedBound(events[1..], id, taken);
      }
    }
  }

  /** Every saved photo comes from one accepted event: an 's' press with a face, saving the crop of
      a face of greatest area that passed the quality check. */
  lemma {:induction false} CapturedFromEvents(events: seq<CaptureEvent>, id: string, taken: nat)
    ensures forall shot :: shot in Captured(events, id, taken) ==>
      exists j :: 0 <= j < |events| && ShotOf(events[j], id) == Some(shot)
  {
    if !(taken >= MaxPhotos || events == [] || events[0].ReadFailed? || events[0].key == PressQ) {
      var c := Captured(events, id, taken);
      var t := if ShotOf(events[0], id).Some? then taken + 1 else taken;
      CapturedFromEvents(events[1..], id, t);
      var rest := Captured(events[1..], id, t);
      assert c == (if ShotOf(events[0], id).Some? then [ShotOf(events[0], id).value] else []) + rest;
      forall shot | shot in c ensures exists j :: 0 <= j < |events| && ShotOf(events[j], id) == Some(shot) {
        if shot !in rest {
          assert ShotOf(events[0], id) == Some(shot);
        } else {
          var j :| 0 <= j < |events[1..]| && ShotOf(events[1..][j], id) == Some(shot);
          assert events[1..][j] == events[j + 1];
        }
      }
    } else {
      assert Captured(events, id, taken) == [];
    }
  }

  /** Nothing after the first read failure or 'q' press is looked at. */
  lemma {:induction false} CapturedStops(events: seq<CaptureEvent>, id: string, taken: nat, i: nat)
    requires i < |events| && (events[i].ReadFailed? || events[i].key == PressQ)
    ensures Captured(events, id, taken) == Captured(events[..i], id, taken)
  {
    if i > 0 && !(taken >= MaxPhotos || events[0].ReadFailed? || events[0].key == PressQ) {
      assert events[..i][1..] == events[1..][..i - 1];
      assert events[..i][0] == events[0];
      var t := if ShotOf(events[0], id).Some? then taken + 1 else taken;
      CapturedStops(events[1..], id, t, i - 1);
    }
  }

  /** `if not os.path.exists(pasta): os.makedirs(pasta)`. */
  function FolderReady(files: Files, id: string): (r: Files)
    ensures PersonDir(id) in r
  {
    if PersonDir(id) in files then files else WithDirs(files, PersonDir(id))
  }

  /** One turn of the loop on an event that neither fails nor quits moves the invariant forward. */
  lemma CapturedAdvance(events: seq<CaptureEvent>, id: string, taken: nat, i: nat, shots: seq<(string, Image)>)
    requires i < |events| && taken < MaxPhotos && !events[i].ReadFailed? && events[i].key != PressQ
    requires shots + Captured(events[i..], id, taken) == Captured(events, id, 0)
    ensures ShotOf(events[i], id).Some? ==>
      (shots + [ShotOf(events[i], id).value]) + Captured(events[i + 1..], id, taken + 1) == Captured(events, id, 0)
    ensures ShotOf(events[i], id).None? ==> shots + Captured(events[i + 1..], id, taken) == Captured(events, id, 0)
  {
    assert events[i..][0] == events[i];
    assert events[i..][1..] == events[i + 1..];
    if ShotOf(events[i], id).Some? {
      var shot := ShotOf(events[i], id).value;
      var rest := Captured(events[i + 1..], id, taken + 1);
      assert shots + ([shot] + rest) == (shots + [shot]) + rest;
    }
  }

  /** The handling of one shown frame: on 's' with a face, the crop of the largest face is saved
      when it passes the quality check. */
  method SaveShot(disk: Disk, id: string, e: CaptureEvent) returns (saved: bool)
    requires e.Shown?
    modifies disk
    ensures saved <==> ShotOf(e, id).Some?
    ensures saved ==> disk.files == old(disk.files)[PhotoFile(id, ShotOf(e, id).value.0) := Picture(ShotOf(e, id).value.1)]
    ensures !saved ==> disk.files == old(disk.files)
  {
    saved := false;
    if e.key == PressS && |e.faces| > 0 {
      var crop := Crop(e.frame, e.faces[LargestIndex(e.faces)]);
      if QualityOk(e.cropGray, e.cropFaces) {
        disk.Write(PhotoFile(id, PhotoName(id, e.token)), Picture(crop));
        saved := true;
      }
    }
  }

  /** The capture loop of `tirar_e_salvar_fotos`, once the camera is open. */
  method CaptureLoop(disk: Disk, id: string, events: seq<CaptureEvent>) returns (count: nat)
    modifies disk
    ensures count == |Captured(events, id, 0)|
    ensures disk.files == WriteShots(old(disk.files), id, Captured(events, id, 0))
  {
    ghost var start := disk.files;
    ghost var shots: seq<(string, Image)> := [];
    count := 0;
    var i := 0;
    assert events[0..] == events;
    while count < MaxPhotos && i < |events|
      invariant 0 <= i <= |events|
      invariant count == |shots|
      invariant shots + Captured(events[i..], id, count) == Captured(events, id, 0)
      invariant disk.files == WriteShots(start, id, shots)
      decreases |events| - i
    {
      var e := events[i];
      assert events[i..][0] == e;
      if e.ReadFailed? {
        break;
      }
      if e.key == PressQ {
        break;
      }
      CapturedAdvance(events, id, count, i, shots);
      var saved := SaveShot(disk, id, e);
      if saved {
        ghost var shot := ShotOf(e, id).value;
        WriteShotsSnoc(start, id, shots, shot);
        shots := shots + [shot];
        count := count + 1;
      }
      i := i + 1;
    }
    assert count >= MaxPhotos || i == |events| ==> Captured(events[i..], id, count) == [];
    assert shots == Captured(events, id, 0);
  }

  /** `tirar_e_salvar_fotos`: prepares the folder, and when the camera opens saves photos until
      ten are taken, a frame cannot be read, or 'q' is pressed; returns how many it saved. */
  method TakePhotos(disk: Disk, id: string, cameraOpens: bool, events: seq<CaptureEvent>) returns (count: nat)
    modifies disk
    ensures count == if cameraOpens then |Captured(events, id, 0)| else 0
    ensures disk.files == WriteShots(FolderReady(old(disk.files), id), id, if cameraOpens then Captured(events, id, 0) else [])
  {
    if PersonDir(id) !in disk.files {
      disk.MakeDirs(PersonDir(id));
    }
    if !cameraOpens {
      assert disk.files == WriteShots(disk.files, id, []);
      return 0;
    }
    count := CaptureLoop(disk, id, events);
  }

  // ---------------------------------------------------------------------------------------------
  // criar_novo_usuario_via_gui, adicionar_mais_fotos, excluir_usuario

  const TableLayout: Layout := UsersSubdir

  /** Why a workflow stopped before touching anything. */
  datatype Rejection = Cancelled | BadCpf | BadLevel | AlreadyEnrolled | UnknownCpf | Declined

  /** The checks enrollment makes before capturing photos: each of the three prompts answered, the
      CPF valid once cleaned, the tier a number 1..3, and the cleaned CPF not yet enrolled. */
  function ScreenEnrollment(name: string, typedCpf: string, typedLevel: string, users: UserTable)
    : (r: Result<(string, string), Rejection>)
    ensures r.Success? <==> (name != "" && typedCpf != "" && typedLevel != ""
      && CheckCpf(typedCpf).Some? && ParseLevel(typedLevel).Some? && CleanCpf(typedCpf) !in Keys(users))
    ensures r.Success? ==> r.value == (CleanCpf(typedCpf), LevelName(ParseLevel(typedLevel).value))
    ensures r == Failure(AlreadyEnrolled) <==> (name != "" && typedCpf != "" && typedLevel != ""
      && CheckCpf(typedCpf).Some? && ParseLevel(typedLevel).Some? && CleanCpf(typedCpf) in Keys(users))
    ensures r.Failure? ==> r.error in {Cancelled, BadCpf, BadLevel, AlreadyEnrolled}
  {
    if name == "" || typedCpf == "" || typedLevel == "" then Failure(Cancelled)
    else if CheckCpf(typedCpf).None? then Failure(BadCpf)
    else if ParseLevel(typedLevel).None? then Failure(BadLevel)
    else if CleanCpf(typedCpf) in Keys(users) then Failure(AlreadyEnrolled)
    else Success((CleanCpf(typedCpf), LevelName(ParseLevel(typedLevel).value)))
  }

  datatype EnrollOutcome =
    | EnrollRejected(why: Rejection)
    | NoPhotos           // no photo taken: the new folder is removed
    | MalformedTier      // the tier record has no "pessoas": the append raises KeyError
    | Enrolled(saved: bool)

  /** `criar_novo_usuario_via_gui`. `freshId` stands for the new `uuid4`; `cameraOpens` and
      `events` for the webcam; `tierSaveOk` and `userSaveOk` for the outcome of the two writes. */
  method Enroll(disk: Disk, name: string, typedCpf: string, typedLevel: string, freshId: string,
                cameraOpens: bool, events: seq<CaptureEvent>, tierSaveOk: bool, userSaveOk: bool)
    returns (outcome: EnrollOutcome)
    modifies disk
    ensures var tiers := LoadTiers(old(disk.files), TierFile(TableLayout));
      var users := LoadUsers(old(disk.files), UserFile(TableLayout));
      var screen := ScreenEnrollment(name, typedCpf, typedLevel, users);
      var shots := if cameraOpens then Captured(events, freshId, 0) else [];
      var afterPhotos := WriteShots(FolderReady(old(disk.files), freshId), freshId, shots);
      match screen
      case Failure(why) => outcome == EnrollRejected(why) && disk.files == old(disk.files)
      case Success((cpf, level)) =>
        if shots == [] then
          outcome == NoPhotos && disk.files == WithoutTree(afterPhotos, freshId)
        else if AppendMember(tiers, level, cpf).None? then
          outcome == MalformedTier && disk.files == afterPhotos
        else
          var tiers' := AppendMember(tiers, level, cpf).value;
          var users' := Put(users, cpf, Person(name, freshId));
          var written := Saved(afterPhotos, TierFile(TableLayout), TierData(tiers'), tierSaveOk);
          outcome == Enrolled(tierSaveOk && userSaveOk) &&
          disk.files == (if !tierSaveOk then afterPhotos
                         else if !userSaveOk then written
                         else Invalidated(Saved(written, UserFile(TableLayout), UserData(users'), true)))
  {
    var tiers := LoadTiers(disk.files, TierFile(TableLayout));
    var users := LoadUsers(disk.files, UserFile(TableLayout));
    var screen := ScreenEnrollment(name, typedCpf, typedLevel, users);
    if screen.Failure? {
      return EnrollRejected(screen.error);
    }
    var (cpf, level) := screen.value;
    ghost var before := disk.files;
    var count := TakePhotos(disk, freshId, cameraOpens, events);
    WriteShotsOnlyPhotos(FolderReady(before, freshId), freshId, if cameraOpens then Captured(events, freshId, 0) else []);
    if count == 0 {
      if PersonDir(freshId) in disk.files {
        disk.RemoveTree(freshId);
      }
      return NoPhotos;
    }
    var tiers' := AppendMember(tiers, level, cpf);
    if tiers'.None? {
      return MalformedTier;
    }
    var users' := Put(users, cpf, Person(name, freshId));
    var ok1 := SaveJson(disk, TierFile(TableLayout), TierData(tiers'.value), tierSaveOk);
    if !ok1 {
      return Enrolled(false);
    }
    var ok2 := SaveJson(disk, UserFile(TableLayout), UserData(users'), userSaveOk);
    if ok2 {
      InvalidateModel(disk);
    }
    outcome := Enrolled(ok2);
  }

  datatype AddPhotosOutcome = AddRejected(why: Rejection) | PhotosAdded(count: nat) | NoneAdded

  /** `adicionar_mais_fotos`: the CPF is looked up exactly as typed. */
  method AddPhotos(disk: Disk, typedCpf: string, cameraOpens: bool, events: seq<CaptureEvent>)
    returns (outcome: AddPhotosOutcome)
    modifies disk
    ensures var users := LoadUsers(old(disk.files), UserFile(TableLayout));
      if typedCpf == "" then outcome == AddRejected(Cancelled) && disk.files == old(disk.files)
      else if typedCpf !in Keys(users) then outcome == AddRejected(UnknownCpf) && disk.files == old(disk.files)
      else
        var id := Get(users, typedCpf).value.id;
        var shots := if cameraOpens then Captured(events, id, 0) else [];
        var afterPhotos := WriteShots(FolderReady(old(disk.files), id), id, shots);
        if shots == [] then outcome == NoneAdded && disk.files == afterPhotos
        else outcome == PhotosAdded(|shots|) && disk.files == Invalidated(afterPhotos)
  {
    if typedCpf == "" {
      return AddRejected(Cancelled);
    }
    var users := LoadUsers(disk.files, UserFile(TableLayout));
    var found := Get(users, typedCpf);
    if found.None? {
      return AddRejected(UnknownCpf);
    }
    var count := TakePhotos(disk, found.value.id, cameraOpens, events);
    if count > 0 {
      InvalidateModel(disk);
      outcome := PhotosAdded(count);
    } else {
      outcome := NoneAdded;
    }
  }

  datatype DeleteOutcome = DeleteRejected(why: Rejection) | Deleted

  /** `excluir_usuario`: after confirmation removes the photo folder, the CPF's first tier
      membership and its identity record, attempts both writes, and invalidates the model. */
  method Delete(disk: Disk, typedCpf: string, confirmed: bool, tierSaveOk: bool, userSaveOk: bool)
    returns (outcome: DeleteOutcome)
    modifies disk
    ensures var users := LoadUsers(old(disk.files), UserFile(TableLayout));
      var tiers := LoadTiers(old(disk.files), TierFile(TableLayout));
      if typedCpf == "" then outcome == DeleteRejected(Cancelled) && disk.files == old(disk.files)
      else if typedCpf !in Keys(users) then outcome == DeleteRejected(UnknownCpf) && disk.files == old(disk.files)
      else if !confirmed then outcome == DeleteRejected(Declined) && disk.files == old(disk.files)
      else
        var id := Get(users, typedCpf).value.id;
        var cleared := if PersonDir(id) in old(disk.files) then WithoutTree(old(disk.files), id) else old(disk.files);
        var step1 := Saved(cleared, TierFile(TableLayout), TierData(DropFirst(tiers, typedCpf)), tierSaveOk);
        outcome == Deleted &&
        disk.files == Invalidated(Saved(step1, UserFile(TableLayout), UserData(Remove(users, typedCpf)), userSaveOk))
  {
    if typedCpf == "" {
      return DeleteRejected(Cancelled);
    }
    var users := LoadUsers(disk.files, UserFile(TableLayout));
    var tiers := LoadTiers(disk.files, TierFile(TableLayout));
    var found := Get(users, typedCpf);
    if found.None? {
      return DeleteRejected(UnknownCpf);
    }
    if !confirmed {
      return DeleteRejected(Declined);
    }
    var id := found.value.id;
    if PersonDir(id) in disk.files {
      disk.RemoveTree(id);
    }
    var tiers' := DropFromFirstTier(tiers, typedCpf);
    var users' := Remove(users, typedCpf);
    var _ := SaveJson(disk, TierFile(TableLayout), TierData(tiers'), tierSaveOk);
    var _ := SaveJson(disk, UserFile(TableLayout), UserData(users'), userSaveOk);
    InvalidateModel(disk);
    outcome := Deleted;
  }
}
