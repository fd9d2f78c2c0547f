/** The two JSON tables every revision reads and writes:
    - the identity table (`userData.json`): CPF -> {"nome", "id"};
    - the tier table (`validation.json`): tier name -> {"pessoas": [CPF, ...]}.
    Both are Python dicts, so both keep insertion order (see module Dict). */
module Tables {
  import opened Wrappers
  import opened Dict
  import Seqs

  /** One identity record: display name and the opaque token naming the photo folder. */
  datatype Person = Person(name: string, id: string)

  /** One tier record; `people` is None when the record has no "pessoas" key. */
  datatype Tier = Tier(people: Option<seq<string>>)

  type TierTable = Dict<string, Tier>
  type UserTable = Dict<string, Person>

  /** `dados.get('pessoas', [])`. */
  function Members(t: Tier): seq<string> {
    t.people.GetOr([])
  }

  /** How many times `cpf` occurs in a list. */
  function Count(s: seq<string>, cpf: string): nat {
    multiset(s)[cpf]
  }

  /** "Autorizado" / "Não Autorizado". */
  datatype Status = Authorized | NotAuthorized

  /** The tier name reported for a CPF no tier lists. */
  const UnknownTier: string := "Nível Desconhecido"

  /** The position of the first tier, in table order, whose member list holds `cpf`. */
  function FirstTierWith(tiers: TierTable, cpf: string): (r: Option<nat>)
    ensures r.Some? ==> r.value < |tiers| && cpf in Members(tiers[r.value].1)
    ensures r.Some? ==> forall j :: 0 <= j < r.value ==> cpf !in Members(tiers[j].1)
    ensures r.None? <==> forall j :: 0 <= j < |tiers| ==> cpf !in Members(tiers[j].1)
  {
    if tiers == [] then None
    else if cpf in Members(tiers[0].1) then Some(0)
    else
      match FirstTierWith(tiers[1..], cpf)
      case Some(i) => Some(i + 1)
      case None => None
  }

  /** `obter_nivel_e_status`: the first tier listing `cpf` and "Autorizado", or the unknown tier and
      "Não Autorizado" when no tier lists it. */
  function TierOf(cpf: string, tiers: TierTable): (r: (string, Status))
    ensures r.1 == Authorized <==> exists i :: 0 <= i < |tiers| && cpf in Members(tiers[i].1)
    ensures r.1 == Authorized ==> FirstTierWith(tiers, cpf).Some? && r.0 == tiers[FirstTierWith(tiers, cpf).value].0
    ensures r.1 == NotAuthorized ==> r.0 == UnknownTier
  {
    if tiers == [] then (UnknownTier, NotAuthorized)
    else if cpf in Members(tiers[0].1) then (tiers[0].0, Authorized)
    else
      var r := TierOf(cpf, tiers[1..]);
      assert forall i :: 1 <= i < |tiers| ==> tiers[i] == tiers[1..][i - 1];
      r
  }

  /** Total number of times `cpf` is listed, over all tiers. */
  function Occurrences(tiers: TierTable, cpf: string): nat {
    if tiers == [] then 0 else Count(Members(tiers[0].1), cpf) + Occurrences(tiers[1..], cpf)
  }

  /** A CPF is listed by some tier exactly when it occurs at all. */
  lemma {:induction false} ListedIffOccurs(tiers: TierTable, cpf: string)
    ensures FirstTierWith(tiers, cpf).None? <==> Occurrences(tiers, cpf) == 0
  {
    if tiers != [] {
      ListedIffOccurs(tiers[1..], cpf);
    }
  }

  // ---------------------------------------------------------------------------------------------
  // Deletion: the loop shared by both delete workflows
  //   for nivel, dados in tiers.items():
  //     if cpf in dados.get('pessoas', []): dados['pessoas'].remove(cpf); break

  /** The tier table after removing the first occurrence of `cpf` from the first tier listing it. */
  function DropFirst(tiers: TierTable, cpf: string): (r: TierTable)
    ensures |r| == |tiers|
  {
    if tiers == [] then []
    else if cpf in Members(tiers[0].1) then
      [(tiers[0].0, Tier(Some(Seqs.RemoveFirst(Members(tiers[0].1), cpf))))] + tiers[1..]
    else
      [tiers[0]] + DropFirst(tiers[1..], cpf)
  }

  /** Removal renames no tier and keeps the table order. */
  lemma {:induction false} DropFirstKeys(tiers: TierTable, cpf: string)
    ensures Keys(DropFirst(tiers, cpf)) == Keys(tiers)
  {
    if tiers != [] && cpf !in Members(tiers[0].1) {
      DropFirstKeys(tiers[1..], cpf);
      assert DropFirst(tiers, cpf)[1..] == DropFirst(tiers[1..], cpf);
    } else if tiers != [] {
      assert DropFirst(tiers, cpf)[1..] == tiers[1..];
    }
  }

  /** Only the first tier listing `cpf` changes, and it loses exactly one occurrence of `cpf`. */
  lemma {:induction false} DropFirstChanges(tiers: TierTable, cpf: string)
    ensures forall j :: 0 <= j < |tiers| && FirstTierWith(tiers, cpf) != Some(j) ==> DropFirst(tiers, cpf)[j] == tiers[j]
    ensures FirstTierWith(tiers, cpf).Some? ==>
      var i := FirstTierWith(tiers, cpf).value;
      DropFirst(tiers, cpf)[i] == (tiers[i].0, Tier(Some(Seqs.RemoveFirst(Members(tiers[i].1), cpf))))
  {
    if tiers != [] && cpf !in Members(tiers[0].1) {
      var tail := tiers[1..];
      var r := DropFirst(tiers, cpf);
      assert r == [tiers[0]] + DropFirst(tail, cpf);
      DropFirstChanges(tail, cpf);
      var f := FirstTierWith(tail, cpf);
      assert FirstTierWith(tiers, cpf) == if f.Some? then Some(f.value + 1) else None;
      forall j | 1 <= j < |tiers| ensures r[j] == DropFirst(tail, cpf)[j - 1] && tiers[j] == tail[j - 1] {
      }
    }
  }

  /** Removing takes one occurrence of `cpf` away (if there was one) and no occurrence of another CPF. */
  lemma {:induction false} DropFirstOccurrences(tiers: TierTable, cpf: string, other: string)
    ensures Occurrences(DropFirst(tiers, cpf), other) ==
      if other == cpf && Occurrences(tiers, cpf) > 0 then Occurrences(tiers, other) - 1 else Occurrences(tiers, other)
  {
    if tiers != [] {
      var r := DropFirst(tiers, cpf);
      if cpf in Members(tiers[0].1) {
        assert r[1..] == tiers[1..];
        Seqs.RemoveFirstMultiset(Members(tiers[0].1), cpf);
        assert Members(r[0].1) == Seqs.RemoveFirst(Members(tiers[0].1), cpf);
      } else {
        assert r[1..] == DropFirst(tiers[1..], cpf);
        DropFirstOccurrences(tiers[1..], cpf, other);
      }
    }
  }

  /** When no tier before position `i` lists `cpf`, removal only concerns the suffix from `i`. */
  lemma {:induction false} DropFirstSkips(tiers: TierTable, cpf: string, i: nat)
    requires i <= |tiers|
    requires forall j :: 0 <= j < i ==> cpf !in Members(tiers[j].1)
    ensures DropFirst(tiers, cpf) == tiers[..i] + DropFirst(tiers[i..], cpf)
  {
    if i > 0 {
      var tail := tiers[1..];
      assert cpf !in Members(tiers[0].1);
      assert DropFirst(tiers, cpf) == [tiers[0]] + DropFirst(tail, cpf);
      forall j | 0 <= j < i - 1 ensures cpf !in Members(tail[j].1) {
        assert tail[j] == tiers[j + 1];
      }
      DropFirstSkips(tail, cpf, i - 1);
      assert tail[i - 1..] == tiers[i..];
      assert tiers[..i] == [tiers[0]] + tail[..i - 1];
    }
  }

  /** The removal loop of `excluir_usuario`: scans the tiers in order and edits the first one listing
      the CPF, then stops. */
  method DropFromFirstTier(tiers: TierTable, cpf: string) returns (r: TierTable)
    ensures r == DropFirst(tiers, cpf)
  {
    var i := 0;
    while i < |tiers|
      invariant 0 <= i <= |tiers|
      invariant forall j :: 0 <= j < i ==> cpf !in Members(tiers[j].1)
    {
      if cpf in Members(tiers[i].1) {
        r := tiers[i := (tiers[i].0, Tier(Some(Seqs.RemoveFirst(Members(tiers[i].1), cpf))))];
        DropFirstSkips(tiers, cpf, i);
        assert tiers[i..][1..] == tiers[i + 1..];
        assert r == tiers[..i] + DropFirst(tiers[i..], cpf);
        return;
      }
      i := i + 1;
    }
    DropFirstSkips(tiers, cpf, i);
    assert tiers[..i] == tiers;
    r := tiers;
  }

  // ---------------------------------------------------------------------------------------------
  // Enrollment: putting a CPF into the tier named `level`

  /** `if nivel not in tiers: tiers[nivel] = {"pessoas": []}`. */
  function WithLevel(tiers: TierTable, level: string): (r: TierTable)
    ensures level in Keys(r)
  {
    if level in Keys(tiers) then tiers
    else
      PutKeys(tiers, level, Tier(Some([])));
      Put(tiers, level, Tier(Some([])))
  }

  /** The member list of tier `level` after `WithLevel`, or None when the existing record has no
      "pessoas" key (the source then fails with a KeyError before saving anything). */
  function LevelMembers(tiers: TierTable, level: string): Option<seq<string>> {
    match Get(WithLevel(tiers, level), level)
    case Some(t) => t.people
    case None => None
  }

  /** `tiers[nivel]["pessoas"].append(cpf)`: appends even when the CPF is already listed. */
  function AppendMember(tiers: TierTable, level: string, cpf: string): Option<TierTable> {
    match LevelMembers(tiers, level)
    case Some(ps) => Some(Put(WithLevel(tiers, level), level, Tier(Some(ps + [cpf]))))
    case None => None
  }

  /** `if cpf not in tiers[nivel]["pessoas"]: ...append(cpf)`: a listed CPF is not appended again. */
  function AddMemberOnce(tiers: TierTable, level: string, cpf: string): Option<TierTable> {
    match LevelMembers(tiers, level)
    case Some(ps) =>
      if cpf in ps then Some(WithLevel(tiers, level))
      else Some(Put(WithLevel(tiers, level), level, Tier(Some(ps + [cpf]))))
    case None => None
  }

  /** Occurrences after `d[k] = v`: the old record's count is replaced by the new record's. */
  lemma {:induction false} PutOccurrences(d: TierTable, k: string, v: Tier, cpf: string)
    ensures Occurrences(Put(d, k, v), cpf) ==
      Occurrences(d, cpf) - (match Get(d, k) case Some(t) => Count(Members(t), cpf) case None => 0) + Count(Members(v), cpf)
  {
    if d == [] {
    } else if d[0].0 == k {
      assert Put(d, k, v)[1..] == d[1..];
    } else {
      PutOccurrences(d[1..], k, v, cpf);
      assert Put(d, k, v)[1..] == Put(d[1..], k, v);
    }
  }

  /** Creating a missing tier record touches no other record and adds `level` at the end. */
  lemma WithLevelEffect(tiers: TierTable, level: string)
    ensures forall k :: k != level ==> Get(WithLevel(tiers, level), k) == Get(tiers, k)
    ensures Keys(WithLevel(tiers, level)) == if level in Keys(tiers) then Keys(tiers) else Keys(tiers) + [level]
  {
    if level !in Keys(tiers) {
      PutKeys(tiers, level, Tier(Some([])));
      forall k | k != level ensures Get(WithLevel(tiers, level), k) == Get(tiers, k) {
        PutGetOther(tiers, level, Tier(Some([])), k);
      }
    }
  }

  /** The record stored under `level` after an append holds the old list plus `cpf`; every other
      record is untouched, and `level` is added at the end if it was new. */
  lemma AppendMemberEffect(tiers: TierTable, level: string, cpf: string)
    requires LevelMembers(tiers, level).Some?
    ensures var r := AppendMember(tiers, level, cpf).value;
      && Get(r, level) == Some(Tier(Some(LevelMembers(tiers, level).value + [cpf])))
      && (forall k :: k != level ==> Get(r, k) == Get(tiers, k))
      && Keys(r) == if level in Keys(tiers) then Keys(tiers) else Keys(tiers) + [level]
  {
    var w := WithLevel(tiers, level);
    var v := Tier(Some(LevelMembers(tiers, level).value + [cpf]));
    var r := Put(w, level, v);
    assert AppendMember(tiers, level, cpf).value == r;
    PutGet(w, level, v);
    PutKeys(w, level, v);
    WithLevelEffect(tiers, level);
    forall k | k != level ensures Get(r, k) == Get(tiers, k) {
      PutGetOther(w, level, v, k);
    }
  }

  /** Appending to tier `level` adds one occurrence of `cpf` and none of any other CPF. */
  lemma AppendMemberOccurrences(tiers: TierTable, level: string, cpf: string, other: string)
    requires LevelMembers(tiers, level).Some?
    ensures Occurrences(AppendMember(tiers, level, cpf).value, other) ==
      Occurrences(tiers, other) + (if other == cpf then 1 else 0)
  {
    var w := WithLevel(tiers, level);
    var ps := LevelMembers(tiers, level).value;
    PutOccurrences(w, level, Tier(Some(ps + [cpf])), other);
    if level !in Keys(tiers) {
      PutOccurrences(tiers, level, Tier(Some([])), other);
    }
    assert multiset(ps + [cpf]) == multiset(ps) + multiset{cpf};
  }

  /** The first tier listing `cpf` after `d[k] = v`, when no tier listed it before and `v` does. */
  lemma {:induction false} PutMakesFirstHolder(d: TierTable, k: string, v: Tier, cpf: string)
    requires FirstTierWith(d, cpf).None? && cpf in Members(v)
    ensures TierOf(cpf, Put(d, k, v)) == (k, Authorized)
  {
    if d != [] && d[0].0 != k {
      PutMakesFirstHolder(d[1..], k, v, cpf);
      assert Put(d, k, v) == [d[0]] + Put(d[1..], k, v);
    }
  }

  /** Appending an unlisted CPF to tier `level` makes the lookup report `level`. */
  lemma AppendMemberLookup(tiers: TierTable, level: string, cpf: string)
    requires LevelMembers(tiers, level).Some?
    requires FirstTierWith(tiers, cpf).None?
    ensures TierOf(cpf, AppendMember(tiers, level, cpf).value) == (level, Authorized)
  {
    var w := WithLevel(tiers, level);
    ListedIffOccurs(tiers, cpf);
    ListedIffOccurs(w, cpf);
    if level !in Keys(tiers) {
      PutOccurrences(tiers, level, Tier(Some([])), cpf);
    }
    PutMakesFirstHolder(w, level, Tier(Some(LevelMembers(tiers, level).value + [cpf])), cpf);
  }

  /** `AddMemberOnce` never adds a second copy of a CPF to a tier list. */
  lemma AddMemberOnceNoDuplicate(tiers: TierTable, level: string, cpf: string)
    requires LevelMembers(tiers, level).Some? && Seqs.Distinct(LevelMembers(tiers, level).value)
    ensures var r := AddMemberOnce(tiers, level, cpf).value;
      && Get(r, level).Some?
      && Members(Get(r, level).value) == LevelMembers(tiers, level).value + (if cpf in LevelMembers(tiers, level).value then [] else [cpf])
      && Seqs.Distinct(Members(Get(r, level).value))
  {
    var w := WithLevel(tiers, level);
    var ps := LevelMembers(tiers, level).value;
    if cpf !in ps {
      PutGet(w, level, Tier(Some(ps + [cpf])));
      var s := ps + [cpf];
      forall i, j | 0 <= i < j < |s| ensures s[i] != s[j] {
        if j == |ps| { assert s[i] == ps[i]; } else { assert s[i] == ps[i] && s[j] == ps[j]; }
      }
    }
  }

  // ---------------------------------------------------------------------------------------------
  // The invariant the tables are meant to keep

  /** Both tables are dicts, and every CPF is listed at most once over all tiers, and only if it
      has an identity record. */
  ghost predicate Consistent(tiers: TierTable, users: UserTable) {
    && UniqueKeys(tiers)
    && UniqueKeys(users)
    && forall cpf :: Occurrences(tiers, cpf) <= if cpf in Keys(users) then 1 else 0
  }

  /** Enrolling a new CPF by appending it to one tier keeps the tables consistent. */
  lemma EnrollKeepsConsistent(tiers: TierTable, users: UserTable, level: string, cpf: string, p: Person)
    requires Consistent(tiers, users) && cpf !in Keys(users)
    requires LevelMembers(tiers, level).Some?
    ensures Consistent(AppendMember(tiers, level, cpf).value, Put(users, cpf, p))
  {
    var r := AppendMember(tiers, level, cpf).value;
    var u := Put(users, cpf, p);
    PutKeys(users, cpf, p);
    PutUnique(users, cpf, p);
    if level !in Keys(tiers) {
      PutUnique(tiers, level, Tier(Some([])));
    }
    PutUnique(WithLevel(tiers, level), level, Tier(Some(LevelMembers(tiers, level).value + [cpf])));
    forall c ensures Occurrences(r, c) <= if c in Keys(u) then 1 else 0 {
      AppendMemberOccurrences(tiers, level, cpf, c);
    }
  }

  /** Removing an enrolled CPF from its tier and from the identity table keeps the tables consistent,
      and leaves the CPF listed nowhere. */
  lemma DeleteKeepsConsistent(tiers: TierTable, users: UserTable, cpf: string)
    requires Consistent(tiers, users) && cpf in Keys(users)
    ensures Consistent(DropFirst(tiers, cpf), Remove(users, cpf))
    ensures TierOf(cpf, DropFirst(tiers, cpf)).1 == NotAuthorized
  {
    var r := DropFirst(tiers, cpf);
    var u := Remove(users, cpf);
    DropFirstKeys(tiers, cpf);
    RemoveKeys(users, cpf);
    RemoveUnique(users, cpf);
    RemoveGet(users, cpf);
    assert cpf !in Keys(u);
    forall c ensures Occurrences(r, c) <= if c in Keys(u) then 1 else 0 {
      DropFirstOccurrences(tiers, cpf, c);
      if c != cpf {
        RemoveGetOther(users, cpf, c);
      }
    }
    ListedIffOccurs(r, cpf);
  }
}
