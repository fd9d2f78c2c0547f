/** The part of the file system the programs touch, as a map from path to content; the content of a
    JSON file is the table it decodes to. */
module Files {
  import opened Wrappers
  import opened Tables
  import opened Imaging

  /** Where a revision keeps its two tables: `cadastro_app.py` and `admin_app.py` put them next to
      the scripts, `utils_admin.py` and `app.py` under `Usuarios_Cadastrados/`. */
  datatype Layout = BaseDir | UsersSubdir

  datatype Path =
    | FacesDir                                  // faces/
    | PersonDir(id: string)                     // faces/<id>/
    | PhotoFile(owner: string, name: string)    // faces/<owner>/<name>
    | ModelDir                                  // Modelo_Treinamento/
    | ModelFile                                 // Modelo_Treinamento/modelo_lbph.yml
    | IdMapFile                                 // Modelo_Treinamento/mapeamento_ids.json
    | UsersDir                                  // Usuarios_Cadastrados/
    | TierFile(layout: Layout)                  // validation.json
    | UserFile(layout: Layout)                  // userData.json
    | CascadeFile                               // haarcascade_frontalface_default.xml
    | DocumentsDir                              // documentos/
    | DocumentFolder(name: string)              // documentos/<name>/

  /** A trained recognizer, represented by the samples and labels it was trained on. */
  datatype Model = Model(faces: seq<Image>, labels: seq<nat>)

  datatype Content =
    | Folder
    | TierData(tiers: TierTable)
    | UserData(users: UserTable)
    | IdMapData(ids: Option<seq<string>>)      // `{"ids_treinamento": [...]}`; None when the key is absent
    | ModelData(model: Model)
    | Picture(img: Image)
    | Unreadable                               // a file `json.load` rejects

  type Files = map<Path, Content>

  /** The directories `os.makedirs` creates on the way to `p`, outermost first. */
  function Ancestors(p: Path): seq<Path> {
    match p
    case PersonDir(_) => [FacesDir]
    case PhotoFile(owner, _) => [FacesDir, PersonDir(owner)]
    case ModelFile => [ModelDir]
    case IdMapFile => [ModelDir]
    case TierFile(UsersSubdir) => [UsersDir]
    case UserFile(UsersSubdir) => [UsersDir]
    case DocumentFolder(_) => [DocumentsDir]
    case _ => []
  }

  function AddFolders(files: Files, dirs: seq<Path>): (r: Files)
    ensures r.Keys == files.Keys + set d | d in dirs
    ensures forall q :: q in files ==> r[q] == files[q]
    ensures forall q :: q in r && q !in files ==> r[q] == Folder
    decreases dirs
  {
    if dirs == [] then files
    else
      var f := if dirs[0] in files then files else files[dirs[0] := Folder];
      AddFolders(f, dirs[1..])
  }

  /** `os.makedirs(p, exist_ok=True)`: `p` and its ancestors exist afterwards, as folders where they
      did not exist before; nothing that existed changes. */
  function WithDirs(files: Files, p: Path): (r: Files)
    ensures r.Keys == files.Keys + {p} + set d | d in Ancestors(p)
    ensures forall q :: q in files ==> r[q] == files[q]
    ensures p !in files ==> r[p] == Folder
  {
    AddFolders(files, Ancestors(p) + [p])
  }

  /** Whether `p` lies in the photo folder of `id` (the folder included). */
  predicate InTree(p: Path, id: string) {
    p == PersonDir(id) || (p.PhotoFile? && p.owner == id)
  }

  /** `shutil.rmtree(faces/<id>)`: the folder and its photos are gone, everything else stays. */
  function WithoutTree(files: Files, id: string): (r: Files)
    ensures forall q :: q in r <==> q in files && !InTree(q, id)
    ensures forall q :: q in r ==> r[q] == files[q]
  {
    map q | q in files && !InTree(q, id) :: files[q]
  }

  /** The file system after the photos `shots` (name, image) are written into the folder of `id`,
      in order. */
  function WriteShots(files: Files, id: string, shots: seq<(string, Image)>): Files {
    if shots == [] then files
    else
      var last := shots[|shots| - 1];
      WriteShots(files, id, shots[..|shots| - 1])[PhotoFile(id, last.0) := Picture(last.1)]
  }

  /** Writing one more photo is one more file written. */
  lemma WriteShotsSnoc(files: Files, id: string, shots: seq<(string, Image)>, shot: (string, Image))
    ensures WriteShots(files, id, shots + [shot]) == WriteShots(files, id, shots)[PhotoFile(id, shot.0) := Picture(shot.1)]
  {
    assert (shots + [shot])[..|shots|] == shots;
  }

  /** Writing photos removes nothing, and changes nothing but photo files. */
  lemma {:induction false} WriteShotsOnlyPhotos(files: Files, id: string, shots: seq<(string, Image)>)
    ensures files.Keys <= WriteShots(files, id, shots).Keys
    ensures forall q: Path :: !q.PhotoFile? ==> (q in WriteShots(files, id, shots) <==> q in files)
    ensures forall q: Path :: !q.PhotoFile? && q in files ==> WriteShots(files, id, shots)[q] == files[q]
  {
    if shots != [] {
      WriteShotsOnlyPhotos(files, id, shots[..|shots| - 1]);
    }
  }

  /** `carregar_dados_json` for the tier table: a missing or unreadable file reads as `{}`. */
  function LoadTiers(files: Files, p: Path): (t: TierTable)
    ensures p !in files || !files[p].TierData? ==> t == []
    ensures p in files && files[p].TierData? ==> t == files[p].tiers
  {
    if p in files && files[p].TierData? then files[p].tiers else []
  }

  /** `carregar_dados_json` for the identity table: a missing or unreadable file reads as `{}`. */
  function LoadUsers(files: Files, p: Path): (u: UserTable)
    ensures p !in files || !files[p].UserData? ==> u == []
    ensures p in files && files[p].UserData? ==> u == files[p].users
  {
    if p in files && files[p].UserData? then files[p].users else []
  }

  /** The file system the programs run against. */
  class Disk {
    var files: Files

    constructor(initial: Files)
      ensures files == initial
    {
      files := initial;
    }

    /** `os.makedirs(p, exist_ok=True)`. */
    method MakeDirs(p: Path)
      modifies this
      ensures files == WithDirs(old(files), p)
    {
      files := WithDirs(files, p);
    }

    /** Writes (or overwrites) one file. */
    method Write(p: Path, c: Content)
      modifies this
      ensures files == old(files)[p := c]
    {
      files := files[p := c];
    }

    /** `os.remove(p)`. */
    method Remove(p: Path)
      modifies this
      ensures files == old(files) - {p}
    {
      files := files - {p};
    }

    /** `shutil.rmtree(faces/<id>)`. */
    method RemoveTree(id: string)
      modifies this
      ensures files == WithoutTree(old(files), id)
    {
      files := WithoutTree(files, id);
    }
  }
}
