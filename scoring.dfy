/**
 * The pure part of the round engine of the Raja-Mantri game: the four roles,
 * the base point table, the search for the holder of a role, and the round
 * scores computed when the Mantri names a suspect.
 */
module Scoring {

  /** Room and player identifiers: opaque values (uuid4 text in the server), only compared for equality. */
  type Id(==, !new)

  datatype Option<T> = None | Some(value: T)

  datatype Role = Raja | Mantri | Chor | Sipahi

  /** The role list as the server writes it before shuffling. */
  const AllRoles: seq<Role> := [Raja, Mantri, Chor, Sipahi]

  /** BASE_POINTS: the score each role earns when nothing is stolen. */
  function BasePoints(r: Role): (p: nat)
    ensures p <= 1000
    ensures p == 0 <==> r == Chor
    ensures r == Raja ==> p == 1000
    ensures r == Mantri ==> 500 < p < 1000
    ensures r == Sipahi ==> 0 < p <= 500
  {
    match r
    case Raja => 1000
    case Mantri => 800
    case Sipahi => 500
    case Chor => 0
  }

  /** What the Chor takes on a wrong guess: the Mantri's base points. */
  const Stolen: nat := BasePoints(Mantri)

  /** The sum of all four role scores in a round. */
  const RoundPool: int := 2300

  predicate Distinct(ids: seq<Id>)
  {
    forall i, j :: 0 <= i < j < |ids| ==> ids[i] != ids[j]
  }

  /**
   * The role map of a room is a dealing of the four roles to its four
   * players: its keys are exactly the roster and the four players hold four
   * different roles (so, there being four roles, each role exactly once).
   */
  predicate RolesFit(ids: seq<Id>, roles: map<Id, Role>)
  {
    && |ids| == 4
    && roles.Keys == {ids[0], ids[1], ids[2], ids[3]}
    && var r0, r1, r2, r3 := roles[ids[0]], roles[ids[1]], roles[ids[2]], roles[ids[3]];
       r0 != r1 && r0 != r2 && r0 != r3 && r1 != r2 && r1 != r3 && r2 != r3
  }

  /**
   * `next(pid for pid, role in roles.items() if role == r)`: the first player,
   * in roster order (the insertion order of the role map), who holds role r.
   */
  function FirstHolder(ids: seq<Id>, roles: map<Id, Role>, r: Role): (h: Option<Id>)
    ensures h.Some? ==> h.value in ids && h.value in roles && roles[h.value] == r
    ensures h.None? ==> forall i :: 0 <= i < |ids| && ids[i] in roles ==> roles[ids[i]] != r
  {
    if ids == [] then None
    else if ids[0] in roles && roles[ids[0]] == r then Some(ids[0])
    else FirstHolder(ids[1..], roles, r)
  }

  /**
   * The search stops at the first holder: whoever of the roster holds role r
   * at position i, the returned holder stands at or before position i.
   */
  lemma {:induction false} FirstHolderIsFirst(ids: seq<Id>, roles: map<Id, Role>, r: Role, i: int)
    requires 0 <= i < |ids| && ids[i] in roles && roles[ids[i]] == r
    ensures FirstHolder(ids, roles, r).Some?
    ensures FirstHolder(ids, roles, r).value in ids[..i + 1]
  {
    if ids[0] in roles && roles[ids[0]] == r {
      assert ids[0] == ids[..i + 1][0];
    } else {
      FirstHolderIsFirst(ids[1..], roles, r, i - 1);
      assert ids[1..][..i] == ids[1..i + 1];
      assert ids[..i + 1] == [ids[0]] + ids[1..i + 1];
    }
  }

  /** A role that appears twice in a sequence has multiplicity at least two. */
  lemma RepeatMultiplicity(s: seq<Role>, i: int, j: int)
    requires 0 <= i < j < |s| && s[i] == s[j]
    ensures multiset(s)[s[i]] >= 2
  {
    assert s == s[..i] + [s[i]] + s[i+1..j] + [s[j]] + s[j+1..];
  }

  /** A permutation of the four roles lists four different roles. */
  lemma ShuffleIsDistinct(s: seq<Role>)
    requires multiset(s) == multiset(AllRoles)
    ensures |s| == 4
    ensures forall i, j :: 0 <= i < j < |s| ==> s[i] != s[j]
  {
    assert |s| == |multiset(s)| == |multiset(AllRoles)| == 4;
    forall i, j | 0 <= i < j < |s|
      ensures s[i] != s[j]
    {
      if s[i] == s[j] {
        RepeatMultiplicity(s, i, j);
        assert false;
      }
    }
  }

  /**
   * A dealing is a bijection: no two players hold the same role, and every
   * role has a holder.
   */
  lemma RolesAreBijection(ids: seq<Id>, roles: map<Id, Role>)
    requires RolesFit(ids, roles)
    ensures forall i, j :: 0 <= i < 4 && 0 <= j < 4 && roles[ids[i]] == roles[ids[j]] ==> i == j
    ensures forall r: Role :: FirstHolder(ids, roles, r).Some?
  {
    forall r: Role
      ensures FirstHolder(ids, roles, r).Some?
    {
      var k := if roles[ids[0]] == r then 0 else if roles[ids[1]] == r then 1
               else if roles[ids[2]] == r then 2 else 3;
      assert roles[ids[k]] == r;
    }
  }

  /** In a dealing, the first holder of a role is its only holder. */
  lemma HolderIsUnique(ids: seq<Id>, roles: map<Id, Role>, r: Role, h: Id, p: Id)
    requires RolesFit(ids, roles) && FirstHolder(ids, roles, r) == Some(h)
    requires p in ids
    ensures roles[p] == r <==> p == h
  {
    RolesAreBijection(ids, roles);
    var i :| 0 <= i < |ids| && ids[i] == p;
    var k :| 0 <= k < |ids| && ids[k] == h;
    if roles[p] == r {
      assert roles[ids[i]] == roles[ids[k]];
    }
  }

  /**
   * The score a role earns in a round, stated without maps: on a correct
   * guess every role keeps its base points; on a wrong guess the Chor adds
   * the stolen Mantri points and the Mantri gets nothing.
   */
  function GuessPoints(r: Role, correct: bool): (p: nat)
  {
    if correct then BasePoints(r)
    else
      match r
      case Chor => BasePoints(Chor) + Stolen
      case Mantri => 0
      case _ => BasePoints(r)
  }

  /**
   * The round score map computed by mantri_guess: base points for every
   * player of the role map, then, when the target is not the real Chor, the
   * Chor's entry is raised by the stolen points and the Mantri's entry is
   * set to 0 (in that order).
   */
  function RoundScores(roles: map<Id, Role>, chor: Id, mantri: Id, target: Id): (s: map<Id, int>)
    requires chor in roles && mantri in roles
    ensures s.Keys == roles.Keys
    ensures forall p :: p in s ==> s[p] >= 0
    ensures target == chor ==> forall p :: p in s ==> s[p] == BasePoints(roles[p])
    ensures target != chor ==> s[mantri] == 0
  {
    var base := map p | p in roles :: BasePoints(roles[p]);
    if target == chor then base
    else base[chor := base[chor] + Stolen][mantri := 0]
  }

  /**
   * With the real Chor and Mantri of a dealing, every player's round score is
   * the score of their role in GuessPoints, and the guess is correct exactly
   * when the target holds the Chor role.
   */
  lemma GuessScores(ids: seq<Id>, roles: map<Id, Role>, chor: Id, mantri: Id, target: Id)
    requires RolesFit(ids, roles)
    requires FirstHolder(ids, roles, Chor) == Some(chor)
    requires FirstHolder(ids, roles, Mantri) == Some(mantri)
    requires target in ids
    ensures (target == chor) == (roles[target] == Chor)
    ensures forall p :: p in ids ==>
      RoundScores(roles, chor, mantri, target)[p] == GuessPoints(roles[p], target == chor)
  {
    HolderIsUnique(ids, roles, Chor, chor, target);
    var s := RoundScores(roles, chor, mantri, target);
    forall p | p in ids
      ensures s[p] == GuessPoints(roles[p], target == chor)
    {
      HolderIsUnique(ids, roles, Chor, chor, p);
      HolderIsUnique(ids, roles, Mantri, mantri, p);
    }
  }

  /** The sum of a score map over the listed players. */
  function SumOver(ids: seq<Id>, s: map<Id, int>): (total: int)
    requires forall i :: 0 <= i < |ids| ==> ids[i] in s
  {
    if ids == [] then 0 else s[ids[0]] + SumOver(ids[1..], s)
  }

  /** Four different roles score 2300 in all, whether or not the guess is correct. */
  lemma PoolOfFourRoles(r0: Role, r1: Role, r2: Role, r3: Role, correct: bool)
    requires r0 != r1 && r0 != r2 && r0 != r3 && r1 != r2 && r1 != r3 && r2 != r3
    ensures GuessPoints(r0, correct) + GuessPoints(r1, correct) + GuessPoints(r2, correct)
            + GuessPoints(r3, correct) == RoundPool
  {
  }

  /**
   * Conservation: whichever player the Mantri names, the round scores of the
   * four players add up to 1000 + 800 + 500 + 0 = 2300.
   */
  lemma RoundTotal(ids: seq<Id>, roles: map<Id, Role>, chor: Id, mantri: Id, target: Id)
    requires RolesFit(ids, roles)
    requires FirstHolder(ids, roles, Chor) == Some(chor)
    requires FirstHolder(ids, roles, Mantri) == Some(mantri)
    requires target in ids
    ensures forall i :: 0 <= i < |ids| ==> ids[i] in RoundScores(roles, chor, mantri, target)
    ensures SumOver(ids, RoundScores(roles, chor, mantri, target)) == RoundPool
  {
    var s := RoundScores(roles, chor, mantri, target);
    var correct := target == chor;
    GuessScores(ids, roles, chor, mantri, target);
    assert SumOver(ids[3..], s) == s[ids[3]] by { assert ids[3..][1..] == []; }
    assert SumOver(ids[2..], s) == s[ids[2]] + SumOver(ids[3..], s) by { assert ids[2..][1..] == ids[3..]; }
    assert SumOver(ids[1..], s) == s[ids[1]] + SumOver(ids[2..], s) by { assert ids[1..][1..] == ids[2..]; }
    PoolOfFourRoles(roles[ids[0]], roles[ids[1]], roles[ids[2]], roles[ids[3]], correct);
  }
}
