/** `calculateMatches` (client/pages/Dashboard.tsx): scores every other user against the
    acting user by the skills each can teach the other, keeps the positive scores, orders
    them by descending score and keeps the first twenty. */
module MatchEngine {
  import opened Seqs
  import opened Records

  /** The bio shown for a user who has none. */
  const DefaultBio: string := "No bio available"
  /** The number of candidates kept. */
  const MatchLimit: nat := 20

  /** A scored candidate. */
  datatype MatchedUser = MatchedUser(
    id: UserId,
    name: string,
    bio: string,
    skills: seq<Skill>,
    wantsToLearn: seq<Skill>,
    matchScore: nat,
    commonSkills: seq<Skill>)

  /** The entries of `me.wantsToLearn` that `other` can teach, duplicates included. */
  function TeachingMatches(me: Profile, other: Profile): (r: seq<Skill>)
    ensures forall s :: s in r <==> s in me.wantsToLearn && s in other.skills
    ensures IsSubsequence(r, me.wantsToLearn)
    ensures forall s :: multiset(r)[s] == if s in other.skills then multiset(me.wantsToLearn)[s] else 0
  {
    FilterMultiset((s: Skill) => s in other.skills, me.wantsToLearn);
    Filter((s: Skill) => s in other.skills, me.wantsToLearn)
  }

  /** The entries of `other.wantsToLearn` that `me` can teach, duplicates included. */
  function LearningMatches(me: Profile, other: Profile): (r: seq<Skill>)
    ensures forall s :: s in r <==> s in other.wantsToLearn && s in me.skills
    ensures IsSubsequence(r, other.wantsToLearn)
    ensures forall s :: multiset(r)[s] == if s in me.skills then multiset(other.wantsToLearn)[s] else 0
  {
    FilterMultiset((s: Skill) => s in me.skills, other.wantsToLearn);
    Filter((s: Skill) => s in me.skills, other.wantsToLearn)
  }

  /** The candidate as the dashboard shows it. */
  function ToMatch(me: Profile, other: Profile): (m: MatchedUser)
    ensures m.id == other.id && m.name == other.name
    ensures m.skills == other.skills && m.wantsToLearn == other.wantsToLearn
    ensures m.bio == (if other.bio == [] then DefaultBio else other.bio)
    ensures m.matchScore == |TeachingMatches(me, other)| + |LearningMatches(me, other)|
    ensures m.commonSkills == Dedup(TeachingMatches(me, other) + LearningMatches(me, other))
  {
    var teaching := TeachingMatches(me, other);
    var learning := LearningMatches(me, other);
    MatchedUser(
      other.id,
      other.name,
      if other.bio == [] then DefaultBio else other.bio,
      other.skills,
      other.wantsToLearn,
      |teaching| + |learning|,
      Dedup(teaching + learning))
  }

  /** `commonSkills` holds each skill matched in either direction once. */
  lemma CommonSkillsSpec(me: Profile, other: Profile)
    ensures NoDup(ToMatch(me, other).commonSkills)
    ensures forall s :: s in ToMatch(me, other).commonSkills <==>
              s in TeachingMatches(me, other) || s in LearningMatches(me, other)
  {
  }

  /** `allUsers.map(...)`. */
  function ScoreAll(me: Profile, others: seq<Profile>): (r: seq<MatchedUser>)
    ensures |r| == |others|
    ensures forall i :: 0 <= i < |others| ==> r[i] == ToMatch(me, others[i])
  {
    if others == [] then [] else [ToMatch(me, others[0])] + ScoreAll(me, others[1..])
  }

  /** The comparator `b.matchScore - a.matchScore` as an ascending sort key. */
  function ScoreKey(m: MatchedUser): int {
    0 - m.matchScore as int
  }

  /** The scored candidates with a positive score, in input order. */
  function Positive(me: Profile, others: seq<Profile>): seq<MatchedUser> {
    Filter((m: MatchedUser) => m.matchScore > 0, ScoreAll(me, others))
  }

  /** The positive candidates, stable-sorted by descending score. */
  function Ranked(me: Profile, others: seq<Profile>): seq<MatchedUser> {
    SortByKey(Positive(me, others), ScoreKey)
  }

  /** `calculateMatches(me, others)`. */
  function CalculateMatches(me: Profile, others: seq<Profile>): (r: seq<MatchedUser>)
    ensures |r| <= MatchLimit
    ensures r <= Ranked(me, others)
  {
    Take(Ranked(me, others), MatchLimit)
  }

  /** Every entry is the scoring of some candidate, with a positive score. */
  lemma MatchesArePositiveCandidates(me: Profile, others: seq<Profile>, m: MatchedUser)
    requires m in CalculateMatches(me, others)
    ensures m.matchScore > 0
    ensures exists u :: u in others && m == ToMatch(me, u)
  {
    var pos := Positive(me, others);
    assert m in Ranked(me, others);
    assert m in multiset(pos);
    assert m in ScoreAll(me, others);
    var i :| 0 <= i < |ScoreAll(me, others)| && ScoreAll(me, others)[i] == m;
    assert others[i] in others;
  }

  /** The entries are ordered by non-increasing score. */
  lemma MatchesSorted(me: Profile, others: seq<Profile>, i: nat, j: nat)
    requires i < j < |CalculateMatches(me, others)|
    ensures CalculateMatches(me, others)[i].matchScore >= CalculateMatches(me, others)[j].matchScore
  {
    var r := Ranked(me, others);
    assert CalculateMatches(me, others)[i] == r[i] && CalculateMatches(me, others)[j] == r[j];
    assert ScoreKey(r[i]) <= ScoreKey(r[j]);
  }

  /** Nothing better is cut off: a positive candidate missing from the result means the
      result is full and every entry scores at least as much. */
  lemma MatchesTopScores(me: Profile, others: seq<Profile>, u: Profile)
    requires u in others && ToMatch(me, u).matchScore > 0
    requires ToMatch(me, u) !in CalculateMatches(me, others)
    ensures |CalculateMatches(me, others)| == MatchLimit
    ensures forall m :: m in CalculateMatches(me, others) ==> m.matchScore >= ToMatch(me, u).matchScore
  {
    var m := ToMatch(me, u);
    PositiveHas(me, others, u);
    TakeSortedTop(Positive(me, others), ScoreKey, MatchLimit, m);
    forall y | y in CalculateMatches(me, others) ensures y.matchScore >= m.matchScore {
      assert ScoreKey(y) <= ScoreKey(m);
    }
  }

  /** A user with a positive score is among the positive candidates. */
  lemma PositiveHas(me: Profile, others: seq<Profile>, u: Profile)
    requires u in others && ToMatch(me, u).matchScore > 0
    ensures ToMatch(me, u) in Positive(me, others)
  {
    var all := ScoreAll(me, others);
    var m := ToMatch(me, u);
    var k :| 0 <= k < |others| && others[k] == u;
    assert all[k] == m;
    FilterHas((x: MatchedUser) => x.matchScore > 0, all, m);
  }

  /** Equal scores keep the input order: the entries with score `k` are the first of the
      positive candidates with score `k`, in input order. */
  lemma MatchesStable(me: Profile, others: seq<Profile>, k: nat)
    ensures Filter((m: MatchedUser) => m.matchScore == k, CalculateMatches(me, others)) <=
            Filter((m: MatchedUser) => m.matchScore == k, Positive(me, others))
  {
    TakeSortedStable(Positive(me, others), ScoreKey, MatchLimit, 0 - k as int,
                     (m: MatchedUser) => m.matchScore == k);
  }

  /** With duplicate-free wish lists, the score is the number of common skills plus the
      number of skills matched in both directions: such a skill counts twice in the score
      but once in `commonSkills`. */
  lemma ScoreCountsBothWaysTwice(me: Profile, other: Profile)
    requires NoDup(me.wantsToLearn) && NoDup(other.wantsToLearn)
    ensures ToMatch(me, other).matchScore ==
            |ToMatch(me, other).commonSkills| +
            |(set s | s in TeachingMatches(me, other)) * (set s | s in LearningMatches(me, other))|
  {
    var t := TeachingMatches(me, other);
    var l := LearningMatches(me, other);
    var c := ToMatch(me, other).commonSkills;
    FilterNoDup((s: Skill) => s in other.skills, me.wantsToLearn);
    FilterNoDup((s: Skill) => s in me.skills, other.wantsToLearn);
    NoDupCardinality(t);
    NoDupCardinality(l);
    NoDupCardinality(c);
    var st := set s | s in t;
    var sl := set s | s in l;
    assert (set s | s in c) == st + sl;
    assert |st + sl| + |st * sl| == |st| + |sl|;
  }
}
