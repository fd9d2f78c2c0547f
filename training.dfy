/** Training-set construction, training and the load-or-train choice of `app.py`. The classifier is
    not modelled: a trained model is represented by the samples and labels it was trained on. */
module Training {
  import opened Wrappers
  import opened Dict
  import opened Seqs
  import opened Tables
  import opened Imaging
  import opened Files
  import UtilsAdmin

  const TableLayout: Layout := UsersSubdir

  /** The side of the square every training face is resized to. */
  const FaceSide: nat := 200

  // ---------------------------------------------------------------------------------------------
  // File names

  function LowerAscii(c: char): char {
    if 'A' <= c <= 'Z' then (c as int + 32) as char else c
  }

  /** `name.lower()` on the letters that matter to the extension test. */
  function Lower(s: string): string {
    seq(|s|, i requires 0 <= i < |s| => LowerAscii(s[i]))
  }

  /** `nome_imagem.lower().endswith(('.jpg', '.png', '.jpeg'))`. */
  predicate HasImageExtension(name: string) {
    var n := Lower(name);
    EndsWith(n, ".jpg") || EndsWith(n, ".png") || EndsWith(n, ".jpeg")
  }

  /** The extension test ignores case: a name and its lower-case form are accepted together. */
  lemma ExtensionIgnoresCase(name: string)
    ensures HasImageExtension(Lower(name)) <==> HasImageExtension(name)
  {
    assert Lower(Lower(name)) == Lower(name);
  }

  lemma ExtensionExamples()
    ensures HasImageExtension("3f2a_0.jpg") && HasImageExtension("FOTO.JPEG") && HasImageExtension("a.Png")
    ensures !HasImageExtension("notas.txt") && !HasImageExtension("jpg") && !HasImageExtension("a.jpg.bak")
  {
    assert Lower("FOTO.JPEG")[4..] == ".jpeg";
    assert Lower("a.Png")[1..] == ".png";
    assert Lower("3f2a_0.jpg")[6..] == ".jpg";
    assert Lower("a.jpg.bak")[5..] == ".bak";
    assert Lower("a.jpg.bak")[4..] == "g.bak";
    assert Lower("notas.txt")[5..] == ".txt";
    assert Lower("notas.txt")[4..] == "s.txt";
  }

  // ---------------------------------------------------------------------------------------------
  // Photos and the samples they contribute

  /** An image as `cv2.imread(..., cv2.IMREAD_GRAYSCALE)` decodes it. */
  type Gray = img: Image | img.Raster? witness Raster(0, 0, [])

  /** One entry of a person's photo folder as the builder sees it: its file name, the decoded grey
      image (`None` when `imread` fails), the number of faces the quality check's detector finds and
      the boxes the training detector finds. */
  datatype PhotoRecord = PhotoRecord(name: string, gray: Option<Gray>, qualityFaces: nat, faces: seq<Box>)

  /** The four filters a photo must pass to contribute samples. */
  predicate Accepted(p: PhotoRecord) {
    HasImageExtension(p.name) && p.gray.Some? && UtilsAdmin.QualityOk(p.gray.value.pixels, p.qualityFaces)
    && |p.faces| > 0
  }

  /** The first detected face, cut out and resized to 200 x 200. */
  function FaceSample(p: PhotoRecord): Image
    requires p.gray.Some? && |p.faces| > 0
  {
    Resize(Crop(p.gray.value, p.faces[0]), FaceSide, FaceSide)
  }

  /** The samples one photo contributes: the six variants of its first face when it passes the
      filters, nothing otherwise. */
  function PhotoSamples(p: PhotoRecord): (r: seq<Image>)
    ensures |r| == if Accepted(p) then 6 else 0
    ensures Accepted(p) ==> r[0] == FaceSample(p)
    ensures forall k :: 0 <= k < |r| ==> Width(r[k]) == FaceSide && Height(r[k]) == FaceSide
  {
    if Accepted(p) then UtilsAdmin.Augmented(FaceSample(p)) else []
  }

  /** The samples of a folder listing, in listing order. */
  function PersonSamples(photos: seq<PhotoRecord>): seq<Image> {
    if photos == [] then []
    else PersonSamples(photos[..|photos| - 1]) + PhotoSamples(photos[|photos| - 1])
  }

  function AcceptedCount(photos: seq<PhotoRecord>): nat {
    if photos == [] then 0
    else AcceptedCount(photos[..|photos| - 1]) + (if Accepted(photos[|photos| - 1]) then 1 else 0)
  }

  /** Every accepted photo contributes exactly six samples and every other photo none. */
  lemma {:induction false} PersonSampleCount(photos: seq<PhotoRecord>)
    ensures |PersonSamples(photos)| == 6 * AcceptedCount(photos)
  {
    if photos != [] {
      PersonSampleCount(photos[..|photos| - 1]);
    }
  }

  /** `os.path.isdir(faces/<id>)`. */
  predicate IsFolder(files: Files, p: Path) {
    p in files && files[p] == Folder
  }

  /** The photos the builder reads for `id`: none when the folder is missing, otherwise the
      listing of the folder. */
  function PhotosOf(files: Files, listing: map<string, seq<PhotoRecord>>, id: string): seq<PhotoRecord> {
    if IsFolder(files, PersonDir(id)) && id in listing then listing[id] else []
  }

  // ---------------------------------------------------------------------------------------------
  // Labels

  /** `{id_unico: i for i, id_unico in enumerate(ids)}`: a later occurrence of an id overwrites
      the label of an earlier one, in the earlier one's place. */
  function LabelMap(ids: seq<string>): Dict<string, nat> {
    if ids == [] then []
    else Put<string, nat>(LabelMap(ids[..|ids| - 1]), ids[|ids| - 1], |ids| - 1)
  }

  /** `list(mapeamento_ids_para_rotulo.keys())`, saved next to the model. */
  function LabelOrder(ids: seq<string>): seq<string> {
    Keys(LabelMap(ids))
  }

  /** Every id gets a label. */
  lemma {:induction false} LabelMapHas(ids: seq<string>)
    ensures forall id :: id in ids ==> id in Keys(LabelMap(ids))
  {
    if ids != [] {
      var n: nat := |ids| - 1;
      var init, last := ids[..n], ids[n];
      LabelMapHas(init);
      assert LabelMap(ids) == Put<string, nat>(LabelMap(init), last, n);
      PutHasKeys<string, nat>(LabelMap(init), last, n);
      assert ids == init + [last];
    }
  }

  /** One step of the comprehension over distinct ids appends the new id with its position. */
  lemma LabelMapDistinctStep(ids: seq<string>)
    requires ids != [] && Distinct(ids)
    requires LabelOrder(ids[..|ids| - 1]) == ids[..|ids| - 1]
    ensures LabelOrder(ids) == ids
    ensures Get(LabelMap(ids), ids[|ids| - 1]) == Some(|ids| - 1)
    ensures forall id :: id != ids[|ids| - 1] ==> Get(LabelMap(ids), id) == Get(LabelMap(ids[..|ids| - 1]), id)
  {
    var n: nat := |ids| - 1;
    var init, last := ids[..n], ids[n];
    var m := LabelMap(init);
    assert LabelMap(ids) == Put<string, nat>(m, last, n);
    assert last !in Keys(m) by {
      assert Keys(m) == init;
      forall j | 0 <= j < n ensures init[j] != last {
        assert init[j] == ids[j];
      }
    }
    PutKeys<string, nat>(m, last, n);
    assert Keys(m) + [last] == ids;
    PutGet<string, nat>(m, last, n);
    forall id | id != last ensures Get(LabelMap(ids), id) == Get(m, id) {
      PutGetOther<string, nat>(m, last, n, id);
    }
  }

  /** For distinct ids the label of each id is its position and the saved order is the id list. */
  lemma {:induction false} LabelMapDistinct(ids: seq<string>)
    requires Distinct(ids)
    ensures LabelOrder(ids) == ids
    ensures forall i :: 0 <= i < |ids| ==> Get(LabelMap(ids), ids[i]) == Some(i)
  {
    if ids != [] {
      var n: nat := |ids| - 1;
      var init := ids[..n];
      assert Distinct(init) by {
        forall i, j | 0 <= i < j < |init| ensures init[i] != init[j] {
          assert init[i] == ids[i] && init[j] == ids[j];
        }
      }
      LabelMapDistinct(init);
      LabelMapDistinctStep(ids);
      forall i | 0 <= i < n ensures Get(LabelMap(ids), ids[i]) == Some(i) {
        assert ids[i] == init[i] && ids[i] != ids[n];
      }
    }
  }

  /** The saved order inverts the labels: the label of an id picks that id out of the order. */
  lemma LabelInverse(ids: seq<string>, id: string)
    requires Distinct(ids) && id in ids
    ensures Get(LabelMap(ids), id).Some? &&
      var l := Get(LabelMap(ids), id).value; l < |LabelOrder(ids)| && LabelOrder(ids)[l] == id
  {
    LabelMapDistinct(ids);
    var i := IndexOf(ids, id);
    assert Get(LabelMap(ids), id) == Some(i);
  }

  /** With a repeated id the label can fall outside the saved order: `["a", "a"]` labels `"a"`
      with 1 but saves the order `["a"]`, so recognition rejects every prediction for it. */
  lemma RepeatedIdLabel()
    ensures Get(LabelMap(["a", "a"]), "a") == Some(1)
    ensures LabelOrder(["a", "a"]) == ["a"]
  {
    var one: seq<string> := ["a"];
    assert ["a", "a"][..1] == one;
    assert one[..0] == [];
  }

  /** The label `mapeamento_ids_para_rotulo[id]` of an id of the list. */
  function LabelOf(ids: seq<string>, id: string): nat
    requires id in ids
  {
    LabelMapHas(ids);
    Get(LabelMap(ids), id).value
  }

  // ---------------------------------------------------------------------------------------------
  // The training set

  /** The samples of the first `n` ids, in the order the builder appends them. */
  function Samples(ids: seq<string>, n: nat, files: Files, listing: map<string, seq<PhotoRecord>>): seq<Image>
    requires n <= |ids|
  {
    if n == 0 then []
    else Samples(ids, n - 1, files, listing) + PersonSamples(PhotosOf(files, listing, ids[n - 1]))
  }

  /** The label appended with each of those samples. */
  function SampleLabels(ids: seq<string>, n: nat, files: Files, listing: map<string, seq<PhotoRecord>>): seq<nat>
    requires n <= |ids|
  {
    if n == 0 then []
    else
      var count := |PersonSamples(PhotosOf(files, listing, ids[n - 1]))|;
      var tag := LabelOf(ids, ids[n - 1]);
      SampleLabels(ids, n - 1, files, listing) + seq(count, _ => tag)
  }

  /** The id whose photo each of those samples was cut from. */
  ghost function SampleOwners(ids: seq<string>, n: nat, files: Files, listing: map<string, seq<PhotoRecord>>): seq<string>
    requires n <= |ids|
  {
    if n == 0 then []
    else
      var count := |PersonSamples(PhotosOf(files, listing, ids[n - 1]))|;
      SampleOwners(ids, n - 1, files, listing) + seq(count, _ => ids[n - 1])
  }

  /** `faces` and `ids` grow together, and every sample carries the label of the id it came from. */
  lemma {:induction false} SamplesLabelled(ids: seq<string>, n: nat, files: Files, listing: map<string, seq<PhotoRecord>>)
    requires n <= |ids|
    ensures |SampleLabels(ids, n, files, listing)| == |Samples(ids, n, files, listing)|
    ensures |SampleOwners(ids, n, files, listing)| == |Samples(ids, n, files, listing)|
    ensures forall k :: 0 <= k < |Samples(ids, n, files, listing)| ==>
      SampleOwners(ids, n, files, listing)[k] in ids &&
      SampleLabels(ids, n, files, listing)[k] == LabelOf(ids, SampleOwners(ids, n, files, listing)[k])
  {
    if n > 0 {
      SamplesLabelled(ids, n - 1, files, listing);
    }
  }

  /** For distinct ids, translating a sample's label through the saved order gives back the id
      whose photo the sample came from. */
  lemma LabelsInvert(ids: seq<string>, files: Files, listing: map<string, seq<PhotoRecord>>)
    requires Distinct(ids)
    ensures var labels := SampleLabels(ids, |ids|, files, listing);
      var owners := SampleOwners(ids, |ids|, files, listing);
      |labels| == |owners| &&
      forall k :: 0 <= k < |labels| ==> labels[k] < |LabelOrder(ids)| && LabelOrder(ids)[labels[k]] == owners[k]
  {
    SamplesLabelled(ids, |ids|, files, listing);
    var labels := SampleLabels(ids, |ids|, files, listing);
    var owners := SampleOwners(ids, |ids|, files, listing);
    forall k | 0 <= k < |labels| ensures labels[k] < |LabelOrder(ids)| && LabelOrder(ids)[labels[k]] == owners[k] {
      LabelInverse(ids, owners[k]);
    }
  }

  /** The set `obter_imagens_e_rotulos` returns. */
  datatype TrainingSet = TrainingSet(faces: seq<Image>, labels: seq<nat>, order: seq<string>)

  /** The inner loops for one person: every accepted photo's six variants, with the person's label. */
  method CollectPerson(photos: seq<PhotoRecord>, tag: nat) returns (faces: seq<Image>, labels: seq<nat>)
    ensures faces == PersonSamples(photos)
    ensures labels == seq(|faces|, _ => tag)
  {
    faces, labels := [], [];
    for i := 0 to |photos|
      invariant faces == PersonSamples(photos[..i])
      invariant labels == seq(|faces|, _ => tag)
    {
      var p := photos[i];
      assert photos[..i + 1][..i] == photos[..i];
      if HasImageExtension(p.name) && p.gray.Some? {
        var img := p.gray.value;
        if UtilsAdmin.QualityOk(img.pixels, p.qualityFaces) && |p.faces| > 0 {
          var variants := UtilsAdmin.Augment(Resize(Crop(img, p.faces[0]), FaceSide, FaceSide));
          ghost var before := faces;
          for k := 0 to |variants|
            invariant faces == before + variants[..k]
            invariant labels == seq(|faces|, _ => tag)
          {
            faces := faces + [variants[k]];
            labels := labels + [tag];
          }
          assert variants[..|variants|] == variants;
        }
      }
    }
    assert photos[..|photos|] == photos;
  }

  /** `obter_imagens_e_rotulos(ids)`: `None` when no sample was collected. */
  method CollectSamples(ids: seq<string>, files: Files, listing: map<string, seq<PhotoRecord>>)
    returns (r: Option<TrainingSet>)
    ensures Samples(ids, |ids|, files, listing) == [] ==> r == None
    ensures Samples(ids, |ids|, files, listing) != [] ==>
      r == Some(TrainingSet(Samples(ids, |ids|, files, listing), SampleLabels(ids, |ids|, files, listing), LabelOrder(ids)))
  {
    var labelMap := LabelMap(ids);
    LabelMapHas(ids);
    var faces: seq<Image> := [];
    var labels: seq<nat> := [];
    for i := 0 to |ids|
      invariant faces == Samples(ids, i, files, listing)
      invariant labels == SampleLabels(ids, i, files, listing)
    {
      var id := ids[i];
      if IsFolder(files, PersonDir(id)) {
        var photos := if id in listing then listing[id] else [];
        var tag := Get(labelMap, id).value;
        var more, moreLabels := CollectPerson(photos, tag);
        faces := faces + more;
        labels := labels + moreLabels;
      }
    }
    if faces == [] {
      return None;
    }
    r := Some(TrainingSet(faces, labels, Keys(labelMap)));
  }

  // ---------------------------------------------------------------------------------------------
  // treinar_e_salvar_modelo

  /** `[dados['id'] for dados in dados_usuario.values()]`. */
  function IdsOf(users: UserTable): seq<string> {
    seq(|users|, i requires 0 <= i < |users| => users[i].1.id)
  }

  /** A trained recognizer and the id order saved beside it. */
  datatype Trained = Trained(model: Model, order: seq<string>)

  /** What training yields for a file system: nothing without users or without samples. */
  function TrainingOutcome(files: Files, listing: map<string, seq<PhotoRecord>>): Option<Trained> {
    var users := LoadUsers(files, UserFile(TableLayout));
    var ids := IdsOf(users);
    if users == [] || Samples(ids, |ids|, files, listing) == [] then None
    else Some(Trained(Model(Samples(ids, |ids|, files, listing), SampleLabels(ids, |ids|, files, listing)), LabelOrder(ids)))
  }

  /** A trained model has as many labels as samples, at least one sample, and a non-empty saved
      order. */
  lemma TrainedFacts(files: Files, listing: map<string, seq<PhotoRecord>>)
    ensures var r := TrainingOutcome(files, listing);
      r.Some? ==> (|r.value.model.faces| == |r.value.model.labels| > 0 && |r.value.order| > 0)
  {
    var r := TrainingOutcome(files, listing);
    if r.Some? {
      var ids := IdsOf(LoadUsers(files, UserFile(TableLayout)));
      SamplesLabelled(ids, |ids|, files, listing);
      LabelMapHas(ids);
      assert ids[0] in LabelOrder(ids);
    }
  }

  /** The files after a successful training: `Modelo_Treinamento/` exists, the model file holds the
      model, and the id map is saved through `salvar_dados_json` when that write succeeds. */
  function TrainedFiles(files: Files, t: Trained, idMapSaveOk: bool): Files {
    var withDir := if ModelDir in files then files else WithDirs(files, ModelDir);
    UtilsAdmin.Saved(withDir[ModelFile := ModelData(t.model)], IdMapFile, IdMapData(Some(t.order)), idMapSaveOk)
  }

  /** `treinar_e_salvar_modelo()`. */
  method TrainAndSave(disk: Disk, listing: map<string, seq<PhotoRecord>>, idMapSaveOk: bool)
    returns (r: Option<Trained>)
    modifies disk
    ensures r == TrainingOutcome(old(disk.files), listing)
    ensures r.None? ==> disk.files == old(disk.files)
    ensures r.Some? ==> disk.files == TrainedFiles(old(disk.files), r.value, idMapSaveOk)
  {
    var users := LoadUsers(disk.files, UserFile(TableLayout));
    if users == [] {
      return None;
    }
    var ids := IdsOf(users);
    var collected := CollectSamples(ids, disk.files, listing);
    if collected.None? {
      return None;
    }
    var model := Model(collected.value.faces, collected.value.labels);
    if ModelDir !in disk.files {
      disk.MakeDirs(ModelDir);
    }
    disk.Write(ModelFile, ModelData(model));
    var _ := UtilsAdmin.SaveJson(disk, IdMapFile, IdMapData(Some(collected.value.order)), idMapSaveOk);
    r := Some(Trained(model, collected.value.order));
  }

  // ---------------------------------------------------------------------------------------------
  // Load or train

  /** `reconhecedor.read(caminho_modelo_salvo)`, when the file holds a model. */
  function LoadedModel(files: Files): Option<Model> {
    if ModelFile in files && files[ModelFile].ModelData? then Some(files[ModelFile].model) else None
  }

  /** `carregar_dados_json(caminho_mapa_ids).get("ids_treinamento")`. */
  function LoadedOrder(files: Files): Option<seq<string>> {
    if IdMapFile in files && files[IdMapFile].IdMapData? then files[IdMapFile].ids else None
  }

  datatype Startup =
    | NoUsers                       // nobody is enrolled: the program ends
    | NoModel                       // neither a persisted nor a fresh model with a non-empty order
    | Recognize(model: Model, order: seq<string>, tiers: TierTable, users: UserTable)

  /** What starting with a persisted model gives. */
  function FromPersisted(files: Files): Startup {
    var tiers := LoadTiers(files, TierFile(TableLayout));
    var users := LoadUsers(files, UserFile(TableLayout));
    var m, o := LoadedModel(files), LoadedOrder(files);
    if m.Some? && o.Some? && o.value != [] then Recognize(m.value, o.value, tiers, users) else NoModel
  }

  /** What starting after a fresh training gives. */
  function FromTraining(files: Files, t: Option<Trained>): Startup {
    var tiers := LoadTiers(files, TierFile(TableLayout));
    var users := LoadUsers(files, UserFile(TableLayout));
    if t.Some? && t.value.order != [] then Recognize(t.value.model, t.value.order, tiers, users) else NoModel
  }

  /** A fresh training always leads on to recognition. */
  lemma FreshTrainingRecognizes(files: Files, listing: map<string, seq<PhotoRecord>>)
    requires TrainingOutcome(files, listing).Some?
    ensures FromTraining(files, TrainingOutcome(files, listing)).Recognize?
    ensures FromTraining(files, TrainingOutcome(files, listing)).order == TrainingOutcome(files, listing).value.order
  {
    TrainedFacts(files, listing);
  }

  /** The main block: ends without users; loads the persisted model when both of its files exist,
      and trains a new one otherwise; recognition starts only with a model and a non-empty order. */
  method Start(disk: Disk, listing: map<string, seq<PhotoRecord>>, idMapSaveOk: bool) returns (s: Startup)
    modifies disk
    ensures LoadUsers(old(disk.files), UserFile(TableLayout)) == [] ==> s == NoUsers && disk.files == old(disk.files)
    ensures LoadUsers(old(disk.files), UserFile(TableLayout)) != [] && ModelFile in old(disk.files) && IdMapFile in old(disk.files)
      ==> s == FromPersisted(old(disk.files)) && disk.files == old(disk.files)
    ensures LoadUsers(old(disk.files), UserFile(TableLayout)) != [] && !(ModelFile in old(disk.files) && IdMapFile in old(disk.files))
      ==> var t := TrainingOutcome(old(disk.files), listing);
          s == FromTraining(old(disk.files), t) &&
          disk.files == (if t.Some? then TrainedFiles(old(disk.files), t.value, idMapSaveOk) else old(disk.files))
  {
    var tiers := LoadTiers(disk.files, TierFile(TableLayout));
    var users := LoadUsers(disk.files, UserFile(TableLayout));
    if users == [] {
      return NoUsers;
    }
    var model: Option<Model>;
    var order: Option<seq<string>>;
    if ModelFile in disk.files && IdMapFile in disk.files {
      model := LoadedModel(disk.files);
      order := LoadedOrder(disk.files);
    } else {
      var t := TrainAndSave(disk, listing, idMapSaveOk);
      model := if t.Some? then Some(t.value.model) else None;
      order := if t.Some? then Some(t.value.order) else None;
    }
    if model.Some? && order.Some? && order.value != [] {
      s := Recognize(model.value, order.value, tiers, users);
    } else {
      s := NoModel;
    }
  }
}
