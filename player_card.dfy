/**
 * The resolvers behind the player card: a rank's colour and badge, a game's
 * logo, and the achievement label derived from a player's statistics.
 * Every resolver is a total function; an unknown key falls back to a default.
 * Icons are described by plain values (icon name, colour, size) rather than
 * by the rendered element tree.
 */
module PlayerCard {
  import opened Wrappers

  /** The fields of a player record that the resolvers read. */
  datatype Player = Player(username: string, rank: string, mainGame: string, wins: int, kd: real)

  /** One icon of the icon font: its name, its colour and its size. */
  datatype Glyph = Glyph(name: string, color: string, size: nat)

  /** How a badge or logo is drawn around its glyph. */
  datatype Emblem =
    | Plain(glyph: Glyph)                          // the icon alone
    | Backed(background: string, glyph: Glyph)     // the icon on a round coloured background
    | TurnedPair(glyph: Glyph)                     // the icon next to a copy turned half a turn

  // ---------------------------------------------------------------------------
  // Ranks

  /** The ten rank names the tables know, exactly as spelled (case matters). */
  const Ranks: set<string> :=
    {"Bronze", "Silver", "Gold", "Platinum", "Diamond",
     "Master", "Grandmaster", "Challenger", "Immortal", "Radiant"}

  const DefaultRankColor := "#4AFAFF"

  const RankColors: map<string, string> := map[
    "Bronze" := "#cd7f32",
    "Silver" := "#c0c0c0",
    "Gold" := "#ffd700",
    "Platinum" := "#4AFAFF",
    "Diamond" := "#56DDFF",
    "Master" := "#9370db",
    "Grandmaster" := "#ff4500",
    "Challenger" := "#ff8c00",
    "Immortal" := "#ff4040",
    "Radiant" := "#00ffff"
  ]

  /** A colour written as '#' followed by six hexadecimal digits. */
  predicate IsHexColor(c: string)
  {
    |c| == 7 && c[0] == '#' &&
    forall i :: 1 <= i < 7 ==> c[i] in "0123456789abcdefABCDEF"
  }

  /** The accent colour of a rank: its table entry, or cyan for any other string. */
  function RankColor(rank: string): (color: string)
    ensures rank !in Ranks ==> color == DefaultRankColor
    ensures IsHexColor(color)
  {
    if rank in RankColors then RankColors[rank] else DefaultRankColor
  }

  const DefaultBadge := Plain(Glyph("star", "#FFD700", 60))

  const RankBadges: map<string, Emblem> := map[
    "Bronze" := Plain(Glyph("medal", "#cd7f32", 60)),
    "Silver" := Plain(Glyph("medal", "#c0c0c0", 60)),
    "Gold" := Plain(Glyph("medal", "#ffd700", 60)),
    "Platinum" := Backed("#e5e4e2", Glyph("gem", "#36454F", 35)),
    "Diamond" := Backed("#b9f2ff", Glyph("gem", "#4F86F7", 35)),
    "Master" := Backed("#9370db", Glyph("crown", "#FFF", 35)),
    "Grandmaster" := Plain(Glyph("chess-king", "#ff4500", 60)),
    "Challenger" := Plain(Glyph("trophy", "#ff8c00", 60)),
    "Immortal" := Backed("#FF5252", Glyph("fire", "#FFF", 35)),
    "Radiant" := Plain(Glyph("sun", "#00ffff", 60))
  ]

  /**
   * The badge of a rank: a known rank never shows the default star, every
   * other string does. Four ranks draw their glyph on a coloured background.
   */
  function RankBadge(rank: string): (badge: Emblem)
    ensures rank !in Ranks ==> badge == DefaultBadge
    ensures rank in Ranks ==> badge != DefaultBadge
    ensures badge.Backed? <==> rank in {"Platinum", "Diamond", "Master", "Immortal"}
    ensures badge.Backed? ==> badge.glyph.size == 35
    ensures !badge.Backed? ==> badge.Plain? && badge.glyph.size == 60
  {
    if rank in RankBadges then RankBadges[rank] else DefaultBadge
  }

  // ---------------------------------------------------------------------------
  // Games

  /** The five games the logo table knows. */
  const Games: set<string> :=
    {"Valorant", "League of Legends", "Apex Legends", "Call of Duty", "Overwatch"}

  const DefaultLogo := Plain(Glyph("gamepad", "#FFF", 24))

  const GameLogos: map<string, Emblem> := map[
    "Valorant" := TurnedPair(Glyph("triangle", "#FF4655", 15)),
    "League of Legends" := Plain(Glyph("chess", "#C89B3C", 24)),
    "Apex Legends" := Plain(Glyph("bullseye", "#DA292A", 24)),
    "Call of Duty" := Plain(Glyph("skull", "#FF6946", 24)),
    "Overwatch" := Plain(Glyph("shield-alt", "#FA9C1E", 24))
  ]

  /**
   * The logo of a game: a known game never shows the default gamepad, every
   * other string does; only Valorant is drawn as a pair, its second
   * icon turned half a turn.
   */
  function GameLogo(game: string): (logo: Emblem)
    ensures game !in Games ==> logo == DefaultLogo
    ensures game in Games ==> logo != DefaultLogo
    ensures logo.TurnedPair? <==> game == "Valorant"
    ensures !logo.Backed?
  {
    if game in GameLogos then GameLogos[game] else DefaultLogo
  }

  // ---------------------------------------------------------------------------
  // Achievement

  const TopPerformer := "*TOP PERFORMER"
  const HighKdRatio := "*HIGH K/D RATIO"
  const GameWinner := "*GAME WINNER"
  const AceClutcher := "*ACE CLUTCHER"
  const SmiteWinner := "*SMITE WINNER"
  const ApexPredator := "*APEX PREDATOR"
  const ActivePlayer := "*ACTIVE PLAYER"

  const AchievementLabels: set<string> :=
    {TopPerformer, HighKdRatio, GameWinner, AceClutcher, SmiteWinner, ApexPredator, ActivePlayer}

  /**
   * The achievement label of a player. The statistics rules come first, in
   * the order wins > 300, kd > 3.0, wins > 200; only a player who meets none
   * of them gets a label chosen by the main game.
   */
  function Achievement(p: Player): (award: string)
    ensures award in AchievementLabels && award[0] == '*'
    ensures p.wins > 300 ==> award == TopPerformer
    ensures p.wins <= 300 && p.kd > 3.0 ==> award == HighKdRatio
    ensures 200 < p.wins <= 300 && p.kd <= 3.0 ==> award == GameWinner
    ensures p.wins <= 200 && p.kd <= 3.0 ==>
      award == (if p.mainGame == "Valorant" then AceClutcher
                else if p.mainGame == "League of Legends" then SmiteWinner
                else if p.mainGame == "Apex Legends" then ApexPredator
                else ActivePlayer)
  {
    if p.wins > 300 then TopPerformer
    else if p.kd > 3.0 then HighKdRatio
    else if p.wins > 200 then GameWinner
    else if p.mainGame == "Valorant" then AceClutcher
    else if p.mainGame == "League of Legends" then SmiteWinner
    else if p.mainGame == "Apex Legends" then ApexPredator
    else ActivePlayer
  }

  /** A test on a player that one precedence rule makes. */
  datatype Condition =
    | WinsAbove(threshold: int)
    | KdAbove(limit: real)
    | MainGameIs(game: string)
    | Always

  predicate Holds(c: Condition, p: Player)
  {
    match c
    case WinsAbove(threshold) => p.wins > threshold
    case KdAbove(limit) => p.kd > limit
    case MainGameIs(game) => p.mainGame == game
    case Always => true
  }

  /** A condition paired with the label it awards. */
  datatype Rule = Rule(when: Condition, award: string)

  /** The precedence of achievement rules, highest first. */
  const AchievementRules: seq<Rule> := [
    Rule(WinsAbove(300), TopPerformer),
    Rule(KdAbove(3.0), HighKdRatio),
    Rule(WinsAbove(200), GameWinner),
    Rule(MainGameIs("Valorant"), AceClutcher),
    Rule(MainGameIs("League of Legends"), SmiteWinner),
    Rule(MainGameIs("Apex Legends"), ApexPredator),
    Rule(Always, ActivePlayer)
  ]

  /**
   * The label of the first rule whose condition holds: it is found exactly
   * when some rule holds, and no earlier rule holds.
   */
  function FirstMatch(rules: seq<Rule>, p: Player): (r: Option<string>)
    ensures r.None? <==> forall i :: 0 <= i < |rules| ==> !Holds(rules[i].when, p)
    ensures r.Some? ==>
      exists i :: 0 <= i < |rules| && Holds(rules[i].when, p) && r.value == rules[i].award &&
        forall j :: 0 <= j < i ==> !Holds(rules[j].when, p)
  {
    if rules == [] then None
    else if Holds(rules[0].when, p) then Some(rules[0].award)
    else
      var r := FirstMatch(rules[1..], p);
      assert forall i :: 1 <= i < |rules| ==> rules[i] == rules[1..][i - 1];
      if r.Some? then
        ghost var k :| 0 <= k < |rules[1..]| && Holds(rules[1..][k].when, p) && r.value == rules[1..][k].award &&
          forall j :: 0 <= j < k ==> !Holds(rules[1..][j].when, p);
        assert Holds(rules[k + 1].when, p) && r.value == rules[k + 1].award;
        r
      else
        r
  }

  /** Achievement is the award of the first achievement rule that holds. */
  lemma AchievementIsFirstMatch(p: Player)
    ensures FirstMatch(AchievementRules, p) == Some(Achievement(p))
  {
    var rules := AchievementRules;
    assert Holds(rules[6].when, p);
    var r := FirstMatch(rules, p);
    var i :| 0 <= i < |rules| && Holds(rules[i].when, p) && r.value == rules[i].award &&
      forall j :: 0 <= j < i ==> !Holds(rules[j].when, p);
    // k is the index of the first rule that holds, read off the definition of Achievement
    var k := if p.wins > 300 then 0
      else if p.kd > 3.0 then 1
      else if p.wins > 200 then 2
      else if p.mainGame == "Valorant" then 3
      else if p.mainGame == "League of Legends" then 4
      else if p.mainGame == "Apex Legends" then 5
      else 6;
    assert Holds(rules[k].when, p) && rules[k].award == Achievement(p);
    assert forall j :: 0 <= j < k ==> !Holds(rules[j].when, p);
    assert i == k;
  }

  // ---------------------------------------------------------------------------
  // Facts that relate the tables

  /** The colour table and the badge table know exactly the same ten ranks. */
  lemma RankTablesAgree()
    ensures RankColors.Keys == Ranks && RankBadges.Keys == Ranks
  {
  }

  /** Distinct known ranks have distinct colours. */
  lemma KnownRankColorsDistinct(r1: string, r2: string)
    requires r1 in Ranks && r2 in Ranks && r1 != r2
    ensures RankColor(r1) != RankColor(r2)
  {
  }

  /**
   * The colour does not identify the rank: Platinum shares the default cyan
   * with every string outside the table.
   */
  lemma PlatinumColorIsDefault(other: string)
    requires other !in Ranks
    ensures RankColor("Platinum") == RankColor(other) == DefaultRankColor
  {
  }
}
