/** The administration program `admin_app.py`: add photos to, or delete, an enrolled CPF in the
    tables next to the scripts. Neither workflow touches the trained model. */
module AdminApp {
  import opened Wrappers
  import opened Dict
  import opened Tables
  import opened Imaging
  import opened Camera
  import opened Files

  const TableLayout: Layout := BaseDir

  /** `salvar_dados_json` in this revision: writes the file, or changes nothing when writing fails. */
  function Saved(files: Files, p: Path, c: Content, ok: bool): Files {
    if ok then files[p := c] else files
  }

  method SaveJson(disk: Disk, p: Path, c: Content, ok: bool) returns (saved: bool)
    modifies disk
    ensures saved == ok && disk.files == Saved(old(disk.files), p, c, ok)
  {
    saved := ok;
    if ok {
      disk.Write(p, c);
    }
  }

  /** `f"{id_unico}_{uuid}.jpg"`. */
  function TokenName(id: string, token: string): string {
    id + "_" + token + ".jpg"
  }

  /** The photos the loop saves: every 's' press on a frame with a face saves the whole frame under
      a fresh random name, until a read failure, 'q', or the end of the events. */
  function Added(events: seq<CaptureEvent>, id: string): seq<(string, Image)>
    decreases |events|
  {
    if events == [] || events[0].ReadFailed? || events[0].key == PressQ then []
    else if events[0].key == PressS && |events[0].faces| > 0 then
      [(TokenName(id, events[0].token), events[0].frame)] + Added(events[1..], id)
    else Added(events[1..], id)
  }

  /** The number of 's' presses on a frame with a face before the loop stops. */
  function Presses(events: seq<CaptureEvent>): nat
    decreases |events|
  {
    if events == [] || events[0].ReadFailed? || events[0].key == PressQ then 0
    else (if events[0].key == PressS && |events[0].faces| > 0 then 1 else 0) + Presses(events[1..])
  }

  /** Event `e` is an accepted 's' press and `shot` is the photo it saves. */
  predicate SavedBy(e: CaptureEvent, id: string, shot: (string, Image)) {
    e.Shown? && e.key == PressS && |e.faces| > 0 && shot == (TokenName(id, e.token), e.frame)
  }

  /** The count reported is the number of accepted presses, and each saved photo is the frame of
      an accepted press. */
  lemma {:induction false} AddedCount(events: seq<CaptureEvent>, id: string)
    ensures |Added(events, id)| == Presses(events)
    ensures forall shot :: shot in Added(events, id) ==> exists j :: 0 <= j < |events| && SavedBy(events[j], id, shot)
  {
    if !(events == [] || events[0].ReadFailed? || events[0].key == PressQ) {
      AddedCount(events[1..], id);
      forall shot | shot in Added(events, id) ensures exists j :: 0 <= j < |events| && SavedBy(events[j], id, shot)
      {
        if shot in Added(events[1..], id) {
          var j :| 0 <= j < |events[1..]| && SavedBy(events[1..][j], id, shot);
          assert events[1..][j] == events[j + 1];
        } else {
          assert SavedBy(events[0], id, shot);
        }
      }
    }
  }

  /** One turn of the loop on an event that neither fails nor quits moves the invariant forward. */
  lemma AddedAdvance(events: seq<CaptureEvent>, id: string, i: nat, shots: seq<(string, Image)>)
    requires i < |events| && !events[i].ReadFailed? && events[i].key != PressQ
    requires shots + Added(events[i..], id) == Added(events, id)
    ensures events[i].key == PressS && |events[i].faces| > 0 ==>
      (shots + [(TokenName(id, events[i].token), events[i].frame)]) + Added(events[i + 1..], id) == Added(events, id)
    ensures !(events[i].key == PressS && |events[i].faces| > 0) ==>
      shots + Added(events[i + 1..], id) == Added(events, id)
  {
    assert events[i..][0] == events[i];
    assert events[i..][1..] == events[i + 1..];
    if events[i].key == PressS && |events[i].faces| > 0 {
      var shot := (TokenName(id, events[i].token), events[i].frame);
      var rest := Added(events[i + 1..], id);
      assert shots + ([shot] + rest) == (shots + [shot]) + rest;
    }
  }

  /** The capture loop of `adicionar_mais_fotos`, once the camera is open. */
  method CaptureLoop(disk: Disk, id: string, events: seq<CaptureEvent>) returns (count: nat)
    modifies disk
    ensures count == |Added(events, id)|
    ensures disk.files == WriteShots(old(disk.files), id, Added(events, id))
  {
    ghost var start := disk.files;
    ghost var shots: seq<(string, Image)> := [];
    count := 0;
    var i := 0;
    assert events[0..] == events;
    while i < |events|
      invariant 0 <= i <= |events|
      invariant count == |shots|
      invariant shots + Added(events[i..], id) == Added(events, id)
      invariant disk.files == WriteShots(start, id, shots)
    {
      var e := events[i];
      assert events[i..][0] == e;
      if e.ReadFailed? {
        break;
      }
      if e.key != PressQ {
        AddedAdvance(events, id, i, shots);
      }
      if e.key == PressS && |e.faces| > 0 {
        var name := TokenName(id, e.token);
        disk.Write(PhotoFile(id, name), Picture(e.frame));
        WriteShotsSnoc(start, id, shots, (name, e.frame));
        shots := shots + [(name, e.frame)];
        count := count + 1;
      }
      if e.key == PressQ {
        break;
      }
      i := i + 1;
    }
    assert i == |events| ==> Added(events[i..], id) == [];
    assert shots == Added(events, id);
  }

  datatype Rejection = UnknownCpf | MissingFolder | MissingCascade | NoCamera | Declined

  datatype AddPhotosOutcome = AddRejected(why: Rejection) | PhotosAdded(count: nat)

  /** `adicionar_mais_fotos(cpf)`: needs the CPF enrolled, its photo folder present and the
      cascade file present; then saves photos into that folder. */
  method AddPhotos(disk: Disk, cpf: string, cameraOpens: bool, events: seq<CaptureEvent>)
    returns (outcome: AddPhotosOutcome)
    modifies disk
    ensures var users := LoadUsers(old(disk.files), UserFile(TableLayout));
      if cpf !in Keys(users) then outcome == AddRejected(UnknownCpf) && disk.files == old(disk.files)
      else
        var id := Get(users, cpf).value.id;
        if PersonDir(id) !in old(disk.files) then outcome == AddRejected(MissingFolder) && disk.files == old(disk.files)
        else if CascadeFile !in old(disk.files) then outcome == AddRejected(MissingCascade) && disk.files == old(disk.files)
        else if !cameraOpens then outcome == AddRejected(NoCamera) && disk.files == old(disk.files)
        else outcome == PhotosAdded(|Added(events, id)|) && disk.files == WriteShots(old(disk.files), id, Added(events, id))
    ensures forall q: Path :: q.ModelFile? || q.IdMapFile? || q.TierFile? || q.UserFile? ==>
      (q in disk.files <==> q in old(disk.files)) && (q in disk.files ==> disk.files[q] == old(disk.files)[q])
  {
    var users := LoadUsers(disk.files, UserFile(TableLayout));
    var found := Get(users, cpf);
    if found.None? {
      return AddRejected(UnknownCpf);
    }
    var id := found.value.id;
    if PersonDir(id) !in disk.files {
      return AddRejected(MissingFolder);
    }
    if CascadeFile !in disk.files {
      return AddRejected(MissingCascade);
    }
    if !cameraOpens {
      return AddRejected(NoCamera);
    }
    var count := CaptureLoop(disk, id, events);
    WriteShotsOnlyPhotos(old(disk.files), id, Added(events, id));
    outcome := PhotosAdded(count);
  }

  datatype DeleteOutcome = DeleteRejected(why: Rejection) | Deleted

  /** `excluir_usuario(cpf)`: after confirmation removes the photo folder, the CPF's first tier
      membership and its identity record, and attempts both writes. */
  method Delete(disk: Disk, cpf: string, confirmed: bool, tierSaveOk: bool, userSaveOk: bool)
    returns (outcome: DeleteOutcome)
    modifies disk
    ensures var users := LoadUsers(old(disk.files), UserFile(TableLayout));
      var tiers := LoadTiers(old(disk.files), TierFile(TableLayout));
      if cpf !in Keys(users) then outcome == DeleteRejected(UnknownCpf) && disk.files == old(disk.files)
      else if !confirmed then outcome == DeleteRejected(Declined) && disk.files == old(disk.files)
      else
        var id := Get(users, cpf).value.id;
        var cleared := if PersonDir(id) in old(disk.files) then WithoutTree(old(disk.files), id) else old(disk.files);
        var step1 := Saved(cleared, TierFile(TableLayout), TierData(DropFirst(tiers, cpf)), tierSaveOk);
        outcome == Deleted &&
        disk.files == Saved(step1, UserFile(TableLayout), UserData(Remove(users, cpf)), userSaveOk)
    ensures ModelFile in disk.files <==> ModelFile in old(disk.files)
    ensures IdMapFile in disk.files <==> IdMapFile in old(disk.files)
  {
    var users := LoadUsers(disk.files, UserFile(TableLayout));
    var tiers := LoadTiers(disk.files, TierFile(TableLayout));
    var found := Get(users, cpf);
    if found.None? {
      return DeleteRejected(UnknownCpf);
    }
    if !confirmed {
      return DeleteRejected(Declined);
    }
    var id := found.value.id;
    if PersonDir(id) in disk.files {
      disk.RemoveTree(id);
    }
    var tiers' := DropFromFirstTier(tiers, cpf);
    var users' := Remove(users, cpf);
    var _ := SaveJson(disk, TierFile(TableLayout), TierData(tiers'), tierSaveOk);
    var _ := SaveJson(disk, UserFile(TableLayout), UserData(users'), userSaveOk);
    outcome := Deleted;
  }
}
