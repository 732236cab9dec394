/** The recommendation list of the dashboard (app.py, lines 267-282): four
    independent threshold checks, tried in a fixed order, each adding one
    fixed message when it fires, and a default message when none fired. */
module Recommendations {
  import opened Profiles

  /** One message of the list: the four checks' messages and the default. */
  datatype Rule = LowScore | OldBuilding | LargeBuilding | IntensiveUse | GoodProfile

  /** The text the dashboard renders for each message: its symbol followed
      by its wording. */
  function Text(r: Rule): (t: string)
    ensures |t| > 0 && t[0] == Icon(r)
  {
    [Icon(r)] + Wording(r)
  }

  /** Everything after the opening symbol; `\U{FE0F}` is the emoji variation
      selector that follows two of the symbols. */
  function Wording(r: Rule): string {
    match r
    case LowScore =>
      "\U{FE0F} **Score ENERGY STAR faible** : Envisagez un audit énergétique et des rénovations."
    case OldBuilding =>
      "\U{FE0F} **Bâtiment ancien** : La modernisation des systèmes HVAC pourrait réduire la consommation de 20-30%."
    case LargeBuilding =>
      " **Grand bâtiment** : Implémentez un système de gestion de l'énergie (BMS) pour optimiser la consommation."
    case IntensiveUse =>
      " **Usage intensif** : Considérez la cogénération ou les panneaux solaires pour réduire l'empreinte carbone."
    case GoodProfile =>
      " **Bon profil énergétique** : Continuez à monitorer et optimiser votre consommation."
  }

  /** The symbol each message opens with; no two messages share one. */
  function Icon(r: Rule): char {
    match r
    case LowScore => '⚠'
    case OldBuilding => '🏗'
    case LargeBuilding => '📊'
    case IntensiveUse => '🔄'
    case GoodProfile => '✅'
  }

  /** Distinct messages have distinct texts, so the list of messages and the
      list of rendered strings carry the same information. */
  lemma TextInjective(r: Rule, s: Rule)
    ensures Text(r) == Text(s) <==> r == s
  {
    if r != s {
      IconInjective(r, s);
      assert Text(r)[0] != Text(s)[0];
    }
  }

  lemma IconInjective(r: Rule, s: Rule)
    requires r != s
    ensures Icon(r) != Icon(s)
  {
  }

  /** Position of a message in the list: the order of the checks, the
      default last. */
  function Rank(r: Rule): nat {
    match r
    case LowScore => 0
    case OldBuilding => 1
    case LargeBuilding => 2
    case IntensiveUse => 3
    case GoodProfile => 4
  }

  /** Whether the check behind a message fires; the default is no check.
      All thresholds are strict. */
  predicate Fires(p: Profile, r: Rule)
    ensures Fires(p, r) ==> r in Checks
  {
    match r
    case LowScore => p.score < 50
    case OldBuilding => p.age > 50
    case LargeBuilding => p.gfa > 100000
    case IntensiveUse => p.kind == "Hotel" || p.kind == "Hospital"
    case GoodProfile => false
  }

  /** The four checks in the order the dashboard tries them. */
  const Checks: seq<Rule> := [LowScore, OldBuilding, LargeBuilding, IntensiveUse]

  /** No check fires: score at least 50, age at most 50, floor area at most
      100,000 and a type other than hotel or hospital. */
  predicate NoCheckFires(p: Profile)
    ensures NoCheckFires(p) <==> forall c :: c in Checks ==> !Fires(p, c)
  {
    NoCheckFiresPointwise(p);
    p.score >= 50 && p.age <= 50 && p.gfa <= 100000 && p.kind != "Hotel" && p.kind != "Hospital"
  }

  lemma NoCheckFiresPointwise(p: Profile)
    ensures (p.score >= 50 && p.age <= 50 && p.gfa <= 100000 && p.kind != "Hotel" && p.kind != "Hospital")
            <==> forall c :: c in Checks ==> !Fires(p, c)
  {
    forall c | c in Checks
      ensures c == LowScore || c == OldBuilding || c == LargeBuilding || c == IntensiveUse
    {
    }
    assert LowScore in Checks && OldBuilding in Checks;
    assert LargeBuilding in Checks && IntensiveUse in Checks;
  }

  /** Messages in strictly increasing position: no repeats, checks' order kept. */
  predicate StrictlyRanked(s: seq<Rule>) {
    forall i, j :: 0 <= i < j < |s| ==> Rank(s[i]) < Rank(s[j])
  }

  /** The one-message contribution of a single check. */
  function Contribution(p: Profile, r: Rule): (s: seq<Rule>)
    ensures |s| <= 1
    ensures s == [r] <==> Fires(p, r)
  {
    if Fires(p, r) then [r] else []
  }

  /** In a strictly ranked list, the head outranks every later member. */
  lemma HeadOutranksTail(rules: seq<Rule>)
    requires rules != []
    ensures StrictlyRanked(rules) ==> StrictlyRanked(rules[1..])
    ensures StrictlyRanked(rules) ==> forall x :: x in rules[1..] ==> Rank(rules[0]) < Rank(x)
  {
  }

  /** Joining two strictly ranked lists, the first below the second, keeps
      the ranking strict. */
  lemma ConcatRanked(a: seq<Rule>, b: seq<Rule>)
    requires |a| <= 1 && StrictlyRanked(b)
    requires forall x, y :: x in a && y in b ==> Rank(x) < Rank(y)
    ensures StrictlyRanked(a + b)
  {
  }

  /** The messages, among `rules`, whose checks fire, in the order of `rules`. */
  function Fired(p: Profile, rules: seq<Rule>): (r: seq<Rule>)
    ensures forall x :: x in r <==> x in rules && Fires(p, x)
    ensures |r| <= |rules|
    ensures StrictlyRanked(rules) ==> StrictlyRanked(r)
  {
    if rules == [] then []
    else
      var head, rest := Contribution(p, rules[0]), Fired(p, rules[1..]);
      HeadOutranksTail(rules);
      assert rules == [rules[0]] + rules[1..];
      if StrictlyRanked(rules) then
        ConcatRanked(head, rest);
        head + rest
      else
        head + rest
  }

  /** Running the four checks in order gives their contributions in order. */
  lemma FiredChecks(p: Profile)
    ensures Fired(p, Checks)
            == Contribution(p, LowScore) + (Contribution(p, OldBuilding)
               + (Contribution(p, LargeBuilding) + Contribution(p, IntensiveUse)))
  {
    var c1, c2, c3 := [OldBuilding, LargeBuilding, IntensiveUse], [LargeBuilding, IntensiveUse], [IntensiveUse];
    assert Checks[1..] == c1 && c1[1..] == c2 && c2[1..] == c3 && c3[1..] == [];
    assert Fired(p, c3) == Contribution(p, IntensiveUse);
    assert Fired(p, c2) == Contribution(p, LargeBuilding) + Fired(p, c3);
    assert Fired(p, c1) == Contribution(p, OldBuilding) + Fired(p, c2);
    assert Fired(p, Checks) == Contribution(p, LowScore) + Fired(p, c1);
  }

  /** The list the dashboard shows for a profile. */
  function RecommendationsOf(p: Profile): (r: seq<Rule>)
    ensures 1 <= |r| <= 4
    ensures GoodProfile in r ==> r == [GoodProfile]
  {
    var fired := Fired(p, Checks);
    if fired == [] then [GoodProfile] else fired
  }

  /** The dashboard's list meets the characterisation. */
  lemma RecommendationsCharacterised(p: Profile)
    ensures Characterises(p, RecommendationsOf(p))
  {
    var fired := Fired(p, Checks);
    assert StrictlyRanked(Checks);
    assert forall c :: c in Checks <==> c != GoodProfile;
    assert forall c :: c != GoodProfile ==> (c in fired <==> Fires(p, c));
    assert fired == [] <==> NoCheckFires(p) by {
      assert (LowScore in fired <==> Fires(p, LowScore)) && (OldBuilding in fired <==> Fires(p, OldBuilding));
      assert (LargeBuilding in fired <==> Fires(p, LargeBuilding)) && (IntensiveUse in fired <==> Fires(p, IntensiveUse));
      if fired != [] {
        assert fired[0] in fired;
      }
    }
  }

  /** What the list must be for a profile: each check's message present
      exactly when the check fires, the default present exactly when no check
      fires, and everything in the checks' order without repeats. */
  predicate Characterises(p: Profile, s: seq<Rule>) {
    && StrictlyRanked(s)
    && (forall c :: c != GoodProfile ==> (c in s <==> Fires(p, c)))
    && (GoodProfile in s <==> NoCheckFires(p))
  }

  /** A list is empty or has its first element as a member. */
  lemma EmptyOrHeadMember(s: seq<Rule>)
    ensures s == [] || s[0] in s
  {
  }

  /** Two lists in strictly increasing position with the same members are
      the same list. */
  lemma {:induction false} RankedListsWithSameMembersAreEqual(a: seq<Rule>, b: seq<Rule>)
    requires StrictlyRanked(a) && StrictlyRanked(b)
    requires forall x :: x in a <==> x in b
    ensures a == b
  {
    if a == [] {
      EmptyOrHeadMember(b);
    } else {
      assert a[0] in a;
      assert b != [];
      assert b[0] in b;
      assert Rank(a[0]) <= Rank(b[0]) by {
        var m :| 0 <= m < |a| && a[m] == b[0];
      }
      assert Rank(b[0]) <= Rank(a[0]) by {
        var k :| 0 <= k < |b| && b[k] == a[0];
      }
      assert a[0] == b[0];
      forall x | x in a[1..] ensures x in b[1..] {
        var m :| 0 <= m < |a[1..]| && a[1..][m] == x;
        assert a[m + 1] == x && Rank(a[0]) < Rank(x);
        assert x in a;
        var k :| 0 <= k < |b| && b[k] == x;
        assert k != 0;
        assert b[1..][k - 1] == x;
      }
      forall x | x in b[1..] ensures x in a[1..] {
        var k :| 0 <= k < |b[1..]| && b[1..][k] == x;
        assert b[k + 1] == x && Rank(b[0]) < Rank(x);
        assert x in b;
        var m :| 0 <= m < |a| && a[m] == x;
        assert m != 0;
        assert a[1..][m - 1] == x;
      }
      RankedListsWithSameMembersAreEqual(a[1..], b[1..]);
    }
  }

  /** The characterisation is exact: it holds of the dashboard's list and of
      no other. */
  lemma CharacterisationIsExact(p: Profile, s: seq<Rule>)
    ensures Characterises(p, s) <==> s == RecommendationsOf(p)
  {
    RecommendationsCharacterised(p);
    if Characterises(p, s) {
      var r := RecommendationsOf(p);
      forall x ensures x in s <==> x in r {
        if x != GoodProfile {
          assert x in s <==> Fires(p, x);
        }
      }
      RankedListsWithSameMembersAreEqual(s, r);
    }
  }

  /** Regrouping a concatenation of four lists. */
  lemma Concat4(a: seq<Rule>, b: seq<Rule>, c: seq<Rule>, d: seq<Rule>)
    ensures a + b + c + d == a + (b + (c + d))
  {
  }

  /** Builds the list as the dashboard does: start empty, append a message
      for each check that fires, in order, and the default when the list is
      still empty. */
  method BuildRecommendations(p: Profile) returns (recommendations: seq<Rule>)
    ensures recommendations == RecommendationsOf(p)
  {
    recommendations := [];
    if p.score < 50 {
      recommendations := recommendations + [LowScore];
    }
    assert recommendations == Contribution(p, LowScore);
    if p.age > 50 {
      recommendations := recommendations + [OldBuilding];
    }
    assert recommendations == Contribution(p, LowScore) + Contribution(p, OldBuilding);
    if p.gfa > 100000 {
      recommendations := recommendations + [LargeBuilding];
    }
    assert recommendations
           == Contribution(p, LowScore) + Contribution(p, OldBuilding) + Contribution(p, LargeBuilding);
    if p.kind in ["Hotel", "Hospital"] {
      recommendations := recommendations + [IntensiveUse];
    }
    assert recommendations
           == Contribution(p, LowScore) + Contribution(p, OldBuilding) + Contribution(p, LargeBuilding)
              + Contribution(p, IntensiveUse);
    Concat4(Contribution(p, LowScore), Contribution(p, OldBuilding), Contribution(p, LargeBuilding),
            Contribution(p, IntensiveUse));
    FiredChecks(p);
    assert recommendations == Fired(p, Checks);
    if recommendations == [] {
      recommendations := recommendations + [GoodProfile];
    }
  }

  /** The thresholds are strict: a score of exactly 50, an age of exactly 50
      and a floor area of exactly 100,000 trigger nothing, so an office with
      these values gets only the default message. */
  lemma ThresholdsAreStrict(p: Profile)
    requires p.score == 50 && p.age == 50 && p.gfa == 100000 && p.kind == "Office (Small/Mid)"
    ensures RecommendationsOf(p) == [GoodProfile]
  {
    FiredChecks(p);
  }

  /** A score of 30 on a 20-year-old office of 50,000 square feet gives the
      one low-score message. */
  lemma LowScoreAlone(p: Profile)
    requires p.score == 30 && p.age == 20 && p.gfa == 50000 && p.kind == "Office (Small/Mid)"
    ensures RecommendationsOf(p) == [LowScore]
  {
    FiredChecks(p);
    assert Contribution(p, LowScore) == [LowScore];
    assert Contribution(p, OldBuilding) == Contribution(p, LargeBuilding) == Contribution(p, IntensiveUse) == [];
    assert Fired(p, Checks) == [LowScore] + ([] + ([] + []));
  }

  /** A score of 80 on the same office gives only the default. */
  lemma GoodScoreAlone(p: Profile)
    requires p.score == 80 && p.age == 20 && p.gfa == 50000 && p.kind == "Office (Small/Mid)"
    ensures RecommendationsOf(p) == [GoodProfile]
  {
    FiredChecks(p);
  }

  /** A 60-year-old hotel of 150,000 square feet with a score of 30 triggers
      all four checks. */
  lemma EveryCheckFires(p: Profile)
    requires p.score == 30 && p.age == 60 && p.gfa == 150000 && p.kind == "Hotel"
    ensures RecommendationsOf(p) == [LowScore, OldBuilding, LargeBuilding, IntensiveUse]
  {
    assert Fired(p, Checks) == [LowScore] + ([OldBuilding] + ([LargeBuilding] + [IntensiveUse])) by {
      FiredChecks(p);
      assert Contribution(p, LowScore) == [LowScore];
      assert Contribution(p, OldBuilding) == [OldBuilding];
      assert Contribution(p, LargeBuilding) == [LargeBuilding];
      assert Contribution(p, IntensiveUse) == [IntensiveUse];
    }
  }
}
