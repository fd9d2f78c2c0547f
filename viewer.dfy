/** The access policy of the document viewer (`document_viewer.py`): which document folders a tier
    may open, the greeting it gets, and whether the administration tools are offered. */
module DocumentViewer {
  import opened Wrappers
  import opened Files
  import opened Validation
  import Tables

  /** `mapa_niveis.get(nivel_acesso, [])`: each tier sees its own folder and those of the tiers
      below it; any other tier name sees none. */
  function FoldersFor(tier: string): seq<string> {
    if tier == "Nivel 1" then ["nivel_1"]
    else if tier == "Nivel 2" then ["nivel_1", "nivel_2"]
    else if tier == "Nivel 3" then ["nivel_1", "nivel_2", "nivel_3"]
    else []
  }

  /** `titulos.get(nivel_acesso, "Bem-vindo!")`. */
  function TitleFor(tier: string): string {
    if tier == "Nivel 2" then "Bem-vindo Diretor(a)!"
    else if tier == "Nivel 3" then "Bem-vindo Ministro(a)!"
    else "Bem-vindo!"
  }

  /** `nivel_acesso == "Nivel 3"`. */
  predicate OffersAdminTools(tier: string) {
    tier == "Nivel 3"
  }

  /** The folder name of tier `k`. */
  function FolderName(k: nat): string
    requires 1 <= k <= 3
  {
    "nivel_" + Decimal(k)
  }

  /** Tier n, as the enrollment forms name it, sees exactly the folders of tiers 1 to n, in order. */
  lemma FoldersOfLevel(n: nat)
    requires 1 <= n <= 3
    ensures FoldersFor(LevelName(n)) == seq(n, i requires 0 <= i < n => FolderName(i + 1))
  {
    assert Decimal(1) == "1" && Decimal(2) == "2" && Decimal(3) == "3";
    assert FolderName(1) == "nivel_1" && FolderName(2) == "nivel_2" && FolderName(3) == "nivel_3";
    var want := seq(n, i requires 0 <= i < n => FolderName(i + 1));
    if n == 1 {
      assert LevelName(1) == "Nivel 1";
      assert want == ["nivel_1"];
    } else if n == 2 {
      assert LevelName(2) == "Nivel 2";
      assert want == ["nivel_1", "nivel_2"];
    } else {
      assert LevelName(3) == "Nivel 3";
      assert want == ["nivel_1", "nivel_2", "nivel_3"];
    }
  }

  /** Access is cumulative: the folders of a tier come first in those of the next tier up. */
  lemma FoldersCumulative(n: nat)
    requires 1 <= n < 3
    ensures |FoldersFor(LevelName(n + 1))| == |FoldersFor(LevelName(n))| + 1 == n + 1
    ensures FoldersFor(LevelName(n)) == FoldersFor(LevelName(n + 1))[..n]
  {
    FoldersOfLevel(n);
    FoldersOfLevel(n + 1);
  }

  /** A name that is not one of the three tiers, the unknown tier among them, sees no folder, gets
      the default greeting and no administration tools. */
  lemma OtherTiersSeeNothing(tier: string)
    requires tier != "Nivel 1" && tier != "Nivel 2" && tier != "Nivel 3"
    ensures FoldersFor(tier) == [] && TitleFor(tier) == "Bem-vindo!" && !OffersAdminTools(tier)
  {
  }

  lemma UnknownTierSeesNothing()
    ensures FoldersFor(Tables.UnknownTier) == [] && !OffersAdminTools(Tables.UnknownTier)
  {
    OtherTiersSeeNothing(Tables.UnknownTier);
  }

  /** Only tier 3 gets the administration tools, and all the folders there are. */
  lemma AdminToolsOnlyForTopTier(n: nat)
    requires 1 <= n <= 3
    ensures OffersAdminTools(LevelName(n)) <==> n == 3
    ensures OffersAdminTools(LevelName(n)) ==> |FoldersFor(LevelName(n))| == 3
  {
    FoldersOfLevel(n);
    LevelNameRoundTrip(n);
    LevelNameRoundTrip(3);
  }

  /** What the viewer window shows: its greeting, the allowed folders that exist (in order), and
      whether the administration buttons are there. */
  datatype View = View(title: string, folders: seq<string>, adminTools: bool)

  /** The allowed folders that exist under `documentos/`, in the order of the tier's list. */
  function ExistingFolders(files: Files, allowed: seq<string>): (r: seq<string>)
    ensures forall f :: f in r <==> f in allowed && DocumentFolder(f) in files
  {
    if allowed == [] then []
    else
      (if DocumentFolder(allowed[0]) in files then [allowed[0]] else []) + ExistingFolders(files, allowed[1..])
  }

  /** `mostrar_documentos(nivel_acesso)`: nothing without the `documentos/` folder. */
  function Show(files: Files, tier: string): (r: Option<View>)
    ensures r.None? <==> DocumentsDir !in files
    ensures r.Some? ==> forall f :: f in r.value.folders ==> f in FoldersFor(tier)
    ensures r.Some? ==> (r.value.adminTools <==> tier == "Nivel 3")
  {
    if DocumentsDir !in files then None
    else Some(View(TitleFor(tier), ExistingFolders(files, FoldersFor(tier)), OffersAdminTools(tier)))
  }

  /** A tier never opens a folder above it: every folder the viewer lists for tier n belongs to a
      tier at most n. */
  lemma NoFolderAboveTier(files: Files, n: nat)
    requires 1 <= n <= 3 && Show(files, LevelName(n)).Some?
    ensures forall f :: f in Show(files, LevelName(n)).value.folders ==>
      exists k :: 1 <= k <= n && f == FolderName(k)
  {
    FoldersOfLevel(n);
    forall f | f in Show(files, LevelName(n)).value.folders ensures exists k :: 1 <= k <= n && f == FolderName(k) {
      var i :| 0 <= i < n && FoldersFor(LevelName(n))[i] == f;
      assert f == FolderName(i + 1);
    }
  }
}
