/** The data a trainer card shows, derived from the save data: capped game
    statistics, the star count (which also picks the card's colour), the Hall
    of Fame debut time unpacked from its 32-bit game statistic, the packed
    trainer ID and the trainer class shown for a link partner. */
module CardData {
  import opened FixedPoint

  const MALE: nat := 0
  const FEMALE: nat := 1

  const CARD_TYPE_FRLG: nat := 0
  const CARD_TYPE_RSE: nat := 1

  /** String terminator of the game's character encoding. */
  const EOS: int := 0xFF

  /** Limits the card applies to game statistics. */
  const LINK_RECORD_CAP: nat := 9999
  const U16_CAP: nat := 0xFFFF

  /** Hall of Fame time shown when the real one is out of range. */
  const HOF_MAX_HOURS: nat := 999
  const HOF_MAX_MINUTES: nat := 59
  const HOF_MAX_SECONDS: nat := 59

  /** Number of card colours: blue, green, bronze, silver, gold. */
  const NUM_CARD_PALETTES: nat := 5

  /** Trainer classes a link partner's card may show. */
  const NUM_LINK_TRAINER_CARD_CLASSES: nat := 8

  datatype FacilityClass =
    | CooltrainerM | BlackBelt | Camper | Youngster | PsychicM | BugCatcher | Tamer | Juggler
    | CooltrainerF | Channeler | Picnicker | Lass | RsPsychicF | BattleGirl | RsPkmnBreederF | Beauty

  /** The part of a trainer card shared with the earlier games' format. */
  datatype CardRse = CardRse(
    gender: nat, stars: nat, hasPokedex: bool, caughtAllHoenn: bool, hasAllPaintings: bool,
    hofDebutHours: nat, hofDebutMinutes: nat, hofDebutSeconds: nat,
    caughtMonsCount: nat, trainerId: nat, playTimeHours: nat, playTimeMinutes: nat,
    linkBattleWins: nat, linkBattleLosses: nat, battleTowerWins: nat, battleTowerStraightWins: nat,
    contestsWithFriends: nat, pokeblocksWithFriends: nat, pokemonTrades: nat, money: nat,
    easyChatProfile: seq<nat>, playerName: seq<int>)

  /** A whole trainer card. */
  datatype TrainerCard = TrainerCard(
    rse: CardRse, version: nat, hasAllFrontierSymbols: bool,
    berryCrushPoints: nat, unionRoomNum: nat, berriesPicked: nat, jumpsInRow: nat,
    shouldDrawStickers: bool, hasAllMons: bool, monIconTint: nat, facilityClass: FacilityClass,
    stickers: seq<nat>, monSpecies: seq<nat>)

  /** Everything the card builders read from the save file and game state.
      `firstHofPlayTime` and the other statistics are `u32` game statistics;
      the Pokedex predicates and the icon species conversion are queries
      whose answers are taken as given. */
  datatype SaveData = SaveData(
    playerGender: nat, playTimeHours: nat, playTimeMinutes: nat,
    firstHofPlayTime: nat, enteredHof: nat,
    pokedexFlag: bool, hasAllHoennMons: bool, hasAllKantoMons: bool, hasAllMons: bool,
    caughtMonsCount: nat, trainerIdLow: nat, trainerIdHigh: nat,
    linkBattleWinsStat: nat, linkBattleLossesStat: nat, tradesStat: nat,
    berryCrushStat: nat, unionRoomStat: nat, money: nat,
    easyChatProfile: seq<nat>, playerName: seq<int>,
    berriesPicked: nat, jumpsInRow: nat,
    stickerVars: seq<nat>, monIconTint: nat, iconSpecies: seq<nat>)

  /** A game statistic, capped at a display limit. */
  function CappedGameStat(stat: nat, maxValue: nat): (r: nat)
    ensures r <= maxValue && r <= stat
    ensures r == stat || r == maxValue
  {
    if maxValue < stat then maxValue else stat
  }

  /** Whether the player has a Hall of Fame debut time. */
  predicate HasHofTime(c: CardRse)
  {
    c.hofDebutHours != 0 || c.hofDebutMinutes != 0 || c.hofDebutSeconds != 0
  }

  function Bit(b: bool): nat
  {
    if b then 1 else 0
  }

  /** `GetTrainerStarCount`: one star each for a Hall of Fame time, a full
      regional Pokedex, a tower streak above 49 and all paintings. */
  function TrainerStarCount(c: CardRse): (r: nat)
    ensures r <= 4 && r < NUM_CARD_PALETTES
    ensures r == 0 <==> !HasHofTime(c) && !c.caughtAllHoenn
                        && c.battleTowerStraightWins <= 49 && !c.hasAllPaintings
    ensures r == 4 <==> HasHofTime(c) && c.caughtAllHoenn
                        && c.battleTowerStraightWins > 49 && c.hasAllPaintings
  {
    Bit(HasHofTime(c)) + Bit(c.caughtAllHoenn) + Bit(c.battleTowerStraightWins > 49)
      + Bit(c.hasAllPaintings)
  }

  /** The Hall of Fame debut time as the card stores it. */
  datatype HofTime = HofTime(hours: nat, minutes: nat, seconds: nat)

  /** Unpack the 32-bit statistic: hours in the high half, minutes and
      seconds in the two low bytes; 0 when the Hall of Fame was never
      entered; 999:59:59 when the hours exceed 999. */
  function DecodeHofTime(playTime: nat, enteredHof: nat): (r: HofTime)
    requires playTime < 0x1_0000_0000
    ensures enteredHof == 0 ==> r == HofTime(0, 0, 0)
    ensures r.hours <= HOF_MAX_HOURS && r.minutes < 256 && r.seconds < 256
  {
    var t := if enteredHof == 0 then 0 else playTime;
    if t / 0x1_0000 > HOF_MAX_HOURS then HofTime(HOF_MAX_HOURS, HOF_MAX_MINUTES, HOF_MAX_SECONDS)
    else HofTime(t / 0x1_0000, (t / 0x100) % 0x100, t % 0x100)
  }

  /** How the game packs a Hall of Fame time into its statistic. */
  function EncodeHofTime(h: HofTime): nat
  {
    h.hours * 0x1_0000 + h.minutes * 0x100 + h.seconds
  }

  /** Every time of at most 999 hours, with byte-sized minutes and seconds,
      is decoded as it was encoded. */
  lemma HofTimeRoundTrip(h: HofTime)
    requires h.hours <= HOF_MAX_HOURS && h.minutes < 256 && h.seconds < 256
    ensures EncodeHofTime(h) < 0x1_0000_0000
    ensures DecodeHofTime(EncodeHofTime(h), 1) == h
  {
    var t := EncodeHofTime(h);
    var low := h.minutes * 0x100 + h.seconds;
    assert low < 0x1_0000;
    DivModUnique(t, 0x1_0000, h.hours, low);
    DivModUnique(t, 0x100, h.hours * 0x100 + h.minutes, h.seconds);
    DivModUnique(h.hours * 0x100 + h.minutes, 0x100, h.hours, h.minutes);
  }

  /** A time beyond 999 hours is shown as 999:59:59. */
  lemma HofTimeClamped(playTime: nat)
    requires playTime < 0x1_0000_0000 && playTime >= (HOF_MAX_HOURS + 1) * 0x1_0000
    ensures DecodeHofTime(playTime, 1) == HofTime(999, 59, 59)
  {
    DivLowerBound(playTime, 0x1_0000, HOF_MAX_HOURS + 1);
  }

  /** The 16-bit trainer ID from the two bytes the save file keeps. */
  function PackTrainerId(low: nat, high: nat): (r: nat)
    requires low < 256 && high < 256
    ensures r < 0x1_0000
  {
    high * 256 + low
  }

  /** The two bytes can be read back out of the packed ID. */
  lemma TrainerIdRoundTrip(low: nat, high: nat)
    requires low < 256 && high < 256
    ensures PackTrainerId(low, high) % 256 == low
    ensures PackTrainerId(low, high) / 256 == high
  {
    DivModUnique(PackTrainerId(low, high), 256, high, low);
  }

  /** The classes a link partner of each gender may be drawn as. */
  function LinkTrainerClasses(gender: nat): (r: seq<FacilityClass>)
    ensures |r| == NUM_LINK_TRAINER_CARD_CLASSES
  {
    if gender == FEMALE then
      [CooltrainerF, Channeler, Picnicker, Lass, RsPsychicF, BattleGirl, RsPkmnBreederF, Beauty]
    else
      [CooltrainerM, BlackBelt, Camper, Youngster, PsychicM, BugCatcher, Tamer, Juggler]
  }

  /** The class is picked by the trainer ID modulo the number of classes, in
      the row of the card's gender (any gender other than FEMALE reads the
      male row). */
  function LinkFacilityClass(gender: nat, trainerId: nat): (r: FacilityClass)
    ensures r == LinkTrainerClasses(gender)[trainerId % NUM_LINK_TRAINER_CARD_CLASSES]
  {
    LinkTrainerClasses(gender)[(trainerId % 0x1_0000) % NUM_LINK_TRAINER_CARD_CLASSES]
  }

  /** The two genders' classes are disjoint, and within one gender the class
      determines the trainer ID modulo 8. */
  lemma LinkFacilityClassDetermines(g1: nat, id1: nat, g2: nat, id2: nat)
    requires LinkFacilityClass(g1, id1) == LinkFacilityClass(g2, id2)
    ensures (g1 == FEMALE) == (g2 == FEMALE)
    ensures id1 % 8 == id2 % 8
  {
    var i1, i2 := (id1 % 0x1_0000) % 8, (id2 % 0x1_0000) % 8;
    assert i1 == id1 % 8 && i2 == id2 % 8;
    var s1, s2 := LinkTrainerClasses(g1), LinkTrainerClasses(g2);
    assert s1[i1] == s2[i2];
  }

  /** StringCopy: the source up to and including its terminator, over the
      start of the destination. */
  function StringCopy(dst: seq<int>, src: seq<int>, n: nat): (r: seq<int>)
    requires n < |src| && n < |dst| && src[n] == EOS
    ensures |r| == |dst| && r[..n + 1] == src[..n + 1] && r[n + 1..] == dst[n + 1..]
  {
    src[..n + 1] + dst[n + 1..]
  }

  /** The index of the first terminator of a string that has one. */
  function StringLength(s: seq<int>): (n: nat)
    requires EOS in s
    ensures n < |s| && s[n] == EOS && EOS !in s[..n]
  {
    if s[0] == EOS then 0
    else
      assert s == [s[0]] + s[1..];
      1 + StringLength(s[1..])
  }

  /** `SetPlayerCardData`: the fields the player's own save determines. With
      the FRLG card type the stars are counted as `GetTrainerStarCount` does;
      with the RSE type they are the Hall of Fame (1 when a time exists) plus
      the full Kanto and full National Pokedex. */
  function SetPlayerCardData(card: TrainerCard, save: SaveData, cardType: nat): (r: TrainerCard)
    requires save.firstHofPlayTime < 0x1_0000_0000
    requires save.trainerIdLow < 256 && save.trainerIdHigh < 256
    requires EOS in save.playerName && StringLength(save.playerName) < |card.rse.playerName|
    ensures r.rse.trainerId == PackTrainerId(save.trainerIdLow, save.trainerIdHigh)
    ensures HofTime(r.rse.hofDebutHours, r.rse.hofDebutMinutes, r.rse.hofDebutSeconds)
            == DecodeHofTime(save.firstHofPlayTime, save.enteredHof)
    ensures r.rse.linkBattleWins <= LINK_RECORD_CAP && r.rse.linkBattleLosses <= LINK_RECORD_CAP
    ensures r.rse.pokemonTrades <= U16_CAP
    ensures cardType == CARD_TYPE_FRLG ==> r.rse.stars == TrainerStarCount(r.rse) <= 2
    ensures cardType == CARD_TYPE_RSE ==>
            r.rse.stars == Bit(HasHofTime(r.rse)) + Bit(save.hasAllKantoMons) + Bit(save.hasAllMons)
    ensures cardType != CARD_TYPE_FRLG && cardType != CARD_TYPE_RSE ==> r.rse.stars == card.rse.stars
    ensures r.version == card.version && r.facilityClass == card.facilityClass
  {
    var hof := DecodeHofTime(save.firstHofPlayTime, save.enteredHof);
    var rse := card.rse.(
      gender := save.playerGender,
      playTimeHours := save.playTimeHours,
      playTimeMinutes := save.playTimeMinutes,
      hofDebutHours := hof.hours,
      hofDebutMinutes := hof.minutes,
      hofDebutSeconds := hof.seconds,
      hasPokedex := save.pokedexFlag,
      caughtAllHoenn := save.hasAllHoennMons,
      caughtMonsCount := save.caughtMonsCount,
      trainerId := PackTrainerId(save.trainerIdLow, save.trainerIdHigh),
      linkBattleWins := CappedGameStat(save.linkBattleWinsStat, LINK_RECORD_CAP),
      linkBattleLosses := CappedGameStat(save.linkBattleLossesStat, LINK_RECORD_CAP),
      pokemonTrades := CappedGameStat(save.tradesStat, U16_CAP),
      battleTowerWins := 0,
      battleTowerStraightWins := 0,
      contestsWithFriends := 0,
      pokeblocksWithFriends := 0,
      hasAllPaintings := false,
      money := save.money,
      easyChatProfile := save.easyChatProfile,
      playerName := StringCopy(card.rse.playerName, save.playerName, StringLength(save.playerName)));
    var stars :=
      if cardType == CARD_TYPE_FRLG then TrainerStarCount(rse)
      else if cardType == CARD_TYPE_RSE then
        (if HasHofTime(rse) then cardType else 0) + Bit(save.hasAllKantoMons) + Bit(save.hasAllMons)
      else card.rse.stars;
    card.(rse := rse.(stars := stars))
  }

  /** `TrainerCard_GenerateCardForLinkPlayer`: the card the player shows, and
      sends to link partners. */
  function GenerateCardForLinkPlayer(card: TrainerCard, save: SaveData, gameVersion: nat): (r: TrainerCard)
    requires save.firstHofPlayTime < 0x1_0000_0000
    requires save.trainerIdLow < 256 && save.trainerIdHigh < 256
    requires EOS in save.playerName && StringLength(save.playerName) < |card.rse.playerName|
    requires |save.stickerVars| == 3 && |save.iconSpecies| == 6
    ensures r.version == gameVersion
    ensures r.facilityClass == LinkFacilityClass(r.rse.gender, r.rse.trainerId)
  {
    var c := SetPlayerCardData(card.(version := gameVersion), save, CARD_TYPE_RSE);
    var c1 := c.(
      rse := c.rse.(stars := Bit(HasHofTime(c.rse)), caughtAllHoenn := save.hasAllKantoMons),
      hasAllMons := save.hasAllMons,
      berriesPicked := save.berriesPicked,
      jumpsInRow := save.jumpsInRow,
      berryCrushPoints := CappedGameStat(save.berryCrushStat, U16_CAP),
      unionRoomNum := CappedGameStat(save.unionRoomStat, U16_CAP),
      shouldDrawStickers := true);
    var stars := c1.rse.stars + Bit(c1.rse.caughtAllHoenn) + Bit(c1.hasAllMons)
                 + Bit(c1.berriesPicked >= 200 && c1.jumpsInRow >= 200);
    c1.(
      rse := c1.rse.(stars := stars),
      facilityClass := LinkFacilityClass(c1.rse.gender, c1.rse.trainerId),
      stickers := save.stickerVars,
      monIconTint := save.monIconTint,
      monSpecies := save.iconSpecies)
  }

  /** The shown card's stars are one per achievement among a Hall of Fame
      time, a full Kanto Pokedex, a full National Pokedex and 200 berries
      picked together with 200 consecutive jumps; at most 4, so they always
      index the five card palettes. */
  lemma LinkCardStars(card: TrainerCard, save: SaveData, gameVersion: nat)
    requires save.firstHofPlayTime < 0x1_0000_0000
    requires save.trainerIdLow < 256 && save.trainerIdHigh < 256
    requires EOS in save.playerName && StringLength(save.playerName) < |card.rse.playerName|
    requires |save.stickerVars| == 3 && |save.iconSpecies| == 6
    ensures var r := GenerateCardForLinkPlayer(card, save, gameVersion);
            r.rse.stars == Bit(DecodeHofTime(save.firstHofPlayTime, save.enteredHof) != HofTime(0, 0, 0))
                           + Bit(save.hasAllKantoMons) + Bit(save.hasAllMons)
                           + Bit(save.berriesPicked >= 200 && save.jumpsInRow >= 200)
            && r.rse.stars < NUM_CARD_PALETTES
  {
    var c := SetPlayerCardData(card.(version := gameVersion), save, CARD_TYPE_RSE);
    var h := DecodeHofTime(save.firstHofPlayTime, save.enteredHof);
    assert HasHofTime(c.rse) <==> h != HofTime(0, 0, 0);
  }

  /** The shown card's class follows the trainer ID and the gender, and the
      recorded statistics stay within their display caps. */
  lemma LinkCardClass(card: TrainerCard, save: SaveData, gameVersion: nat)
    requires save.firstHofPlayTime < 0x1_0000_0000
    requires save.trainerIdLow < 256 && save.trainerIdHigh < 256
    requires EOS in save.playerName && StringLength(save.playerName) < |card.rse.playerName|
    requires |save.stickerVars| == 3 && |save.iconSpecies| == 6
    ensures var r := GenerateCardForLinkPlayer(card, save, gameVersion);
            && r.facilityClass == LinkTrainerClasses(save.playerGender)[
                 PackTrainerId(save.trainerIdLow, save.trainerIdHigh) % 8]
            && r.berryCrushPoints <= U16_CAP && r.unionRoomNum <= U16_CAP
  {
    var c := SetPlayerCardData(card.(version := gameVersion), save, CARD_TYPE_RSE);
    assert c.rse.gender == save.playerGender;
  }
}
