/**
 * The helpers of src/lib/utils.ts: the team fee, the three player-ID
 * validators, the game-name dispatcher and the price-tier label and colour.
 */
module GameIds {
  import opened Wrappers
  import opened Patterns

  // ---------------------------------------------------------------- fees

  /** The fee a team pays: the per-person fee times the number of players. */
  function CalculateTeamFee(perPersonFee: int, playerCount: int): int {
    perPersonFee * playerCount
  }

  /** An empty team pays nothing, and the fee is linear in each argument. */
  lemma TeamFeeIsLinear(fee: int, fee': int, players: int, players': int)
    ensures CalculateTeamFee(fee, 0) == 0 && CalculateTeamFee(0, players) == 0
    ensures CalculateTeamFee(fee + fee', players) == CalculateTeamFee(fee, players) + CalculateTeamFee(fee', players)
    ensures CalculateTeamFee(fee, players + players') == CalculateTeamFee(fee, players) + CalculateTeamFee(fee, players')
  {
  }

  // ---------------------------------------------------------- validators

  /** `/^.{3,16}#[a-zA-Z0-9]{3,5}$/` */
  const RiotIdPattern := [Atom(AnyButLineTerminator, 3, 16), Atom(Exactly('#'), 1, 1), Atom(AsciiAlnum, 3, 5)]
  /** `/^[a-zA-Z0-9_-]{5,30}$/` */
  const PubgIdPattern := [Atom(AsciiAlnumUnderscoreDash, 5, 30)]
  /** `/^\d{10,12}$/` */
  const FreeFireUidPattern := [Atom(AsciiDigit, 10, 12)]

  /** The position of the last occurrence of `c` in `s`, if any. */
  function LastIndexOf(s: string, c: char): (r: Option<nat>)
    ensures r.None? ==> forall i | 0 <= i < |s| :: s[i] != c
    ensures r.Some? ==> r.value < |s| && s[r.value] == c && forall i | r.value < i < |s| :: s[i] != c
  {
    if |s| == 0 then None
    else if s[|s| - 1] == c then Some(|s| - 1)
    else LastIndexOf(s[..|s| - 1], c)
  }

  /**
   * A Riot ID `Username#Tag`: split at the last `#`, the tag is 3 to 5 ASCII
   * letters or digits and the name 3 to 16 characters other than line terminators.
   */
  predicate ValidateRiotId(riotId: string) {
    match LastIndexOf(riotId, '#')
    case None => false
    case Some(k) =>
      && 3 <= k <= 16 && AllIn(riotId[..k], AnyButLineTerminator)
      && 3 <= |riotId| - (k + 1) <= 5 && AllIn(riotId[k + 1..], AsciiAlnum)
  }

  /** A PUBG/BGMI ID: 5 to 30 ASCII letters, digits, underscores or dashes. */
  predicate ValidatePubgId(pubgId: string) {
    5 <= |pubgId| <= 30 && AllIn(pubgId, AsciiAlnumUnderscoreDash)
  }

  /** A Free Fire UID: 10 to 12 ASCII digits. */
  predicate ValidateFreeFireUid(uid: string) {
    10 <= |uid| <= 12 && AllIn(uid, AsciiDigit)
  }

  /** The Riot ID check accepts exactly what its regular expression accepts. */
  lemma RiotIdMatchesRegex(riotId: string)
    ensures ValidateRiotId(riotId) <==> FullMatch(RiotIdPattern, riotId)
  {
    if ValidateRiotId(riotId) {
      RiotIdIsMatched(riotId);
    }
    if FullMatch(RiotIdPattern, riotId) {
      RiotMatchIsValid(riotId);
    }
  }

  lemma RiotIdIsMatched(riotId: string)
    requires ValidateRiotId(riotId)
    ensures FullMatch(RiotIdPattern, riotId)
  {
    var k := LastIndexOf(riotId, '#').value;
    var rest := riotId[k..];
    var tag := Atom(AsciiAlnum, 3, 5);
    assert rest[1..] == riotId[k + 1..];
    MatchOneAtom(tag, rest[1..]);
    MatchCons([Atom(Exactly('#'), 1, 1), tag], rest, 1);
    MatchCons(RiotIdPattern, riotId, k);
  }

  lemma RiotMatchIsValid(riotId: string)
    requires FullMatch(RiotIdPattern, riotId)
    ensures ValidateRiotId(riotId)
  {
    var k := SplitMatch(RiotIdPattern, riotId);
    TagMatch(riotId[k..]);
    assert riotId[k..][1..] == riotId[k + 1..];
    LastHashAt(riotId, k);
  }

  /** What follows the name in a Riot ID match: `#`, then 3 to 5 letters or digits. */
  lemma TagMatch(rest: string)
    requires FullMatch(RiotIdPattern[1..], rest)
    ensures 4 <= |rest| <= 6 && rest[0] == '#' && AllIn(rest[1..], AsciiAlnum)
  {
    var tail := RiotIdPattern[1..];
    var j := SplitMatch(tail, rest);
    assert tail[1..] == [Atom(AsciiAlnum, 3, 5)];
    MatchOneAtom(Atom(AsciiAlnum, 3, 5), rest[1..]);
    assert rest[0] == rest[..1][0];
  }

  /** A `#` followed only by letters and digits is the last `#`. */
  lemma LastHashAt(s: string, k: nat)
    requires k < |s| && s[k] == '#' && AllIn(s[k + 1..], AsciiAlnum)
    ensures LastIndexOf(s, '#') == Some(k)
  {
  }

  /** The PUBG/BGMI check accepts exactly what its regular expression accepts. */
  lemma PubgIdMatchesRegex(pubgId: string)
    ensures ValidatePubgId(pubgId) <==> FullMatch(PubgIdPattern, pubgId)
  {
    MatchOneAtom(PubgIdPattern[0], pubgId);
  }

  /** The Free Fire check accepts exactly what its regular expression accepts. */
  lemma FreeFireUidMatchesRegex(uid: string)
    ensures ValidateFreeFireUid(uid) <==> FullMatch(FreeFireUidPattern, uid)
  {
    MatchOneAtom(FreeFireUidPattern[0], uid);
  }

  /** Every accepted Riot ID has between 7 and 22 characters. */
  lemma RiotIdLength(riotId: string)
    requires ValidateRiotId(riotId)
    ensures 7 <= |riotId| <= 22
  {
  }

  /** Every Free Fire UID is also a well-formed PUBG/BGMI ID. */
  lemma FreeFireUidIsPubgId(uid: string)
    requires ValidateFreeFireUid(uid)
    ensures ValidatePubgId(uid)
  {
  }

  /** No string is both a Riot ID and a PUBG/BGMI ID: a Riot ID holds a `#`. */
  lemma RiotIdIsNeverPubgId(id: string)
    requires ValidateRiotId(id)
    ensures !ValidatePubgId(id) && !ValidateFreeFireUid(id)
  {
    var k := LastIndexOf(id, '#').value;
    assert !InClass(id[k], AsciiAlnumUnderscoreDash);
  }

  // ---------------------------------------------------------- dispatcher

  /** The validator `getGameValidator` hands out, one constructor per returned function. */
  datatype GameValidator = RiotIdValidator | PubgIdValidator | FreeFireUidValidator | AcceptAnyId

  /** Applying the returned validator to an ID. */
  predicate Accepts(v: GameValidator, id: string) {
    match v
    case RiotIdValidator => ValidateRiotId(id)
    case PubgIdValidator => ValidatePubgId(id)
    case FreeFireUidValidator => ValidateFreeFireUid(id)
    case AcceptAnyId => true
  }

  function LowerChar(c: char): char {
    if 'A' <= c <= 'Z' then (c as int - 'A' as int + 'a' as int) as char else c
  }

  /** `String.prototype.toLowerCase` restricted to ASCII letters. */
  function ToLowerCase(s: string): string {
    seq(|s|, i requires 0 <= i < |s| => LowerChar(s[i]))
  }

  function GetGameValidator(game: string): GameValidator {
    match ToLowerCase(game)
    case "valorant" => RiotIdValidator
    case "pubg" => PubgIdValidator
    case "bgmi" => PubgIdValidator
    case "freefire" => FreeFireUidValidator
    case "free fire" => FreeFireUidValidator
    case _ => AcceptAnyId
  }

  /** `a` and `b` spell the same word up to the case of ASCII letters. */
  predicate SameIgnoringCase(a: string, b: string) {
    |a| == |b| && forall i | 0 <= i < |a| :: LowerChar(a[i]) == LowerChar(b[i])
  }

  /** Lower-casing a name gives an all-lower-case word exactly when they agree up to case. */
  lemma LowerCaseIs(game: string, word: string)
    requires forall i | 0 <= i < |word| :: LowerChar(word[i]) == word[i]
    ensures ToLowerCase(game) == word <==> SameIgnoringCase(game, word)
  {
    if SameIgnoringCase(game, word) {
      assert forall i | 0 <= i < |word| :: ToLowerCase(game)[i] == word[i];
    }
  }

  /** Which validator a game name selects, for every spelling of every name. */
  lemma GameValidatorSelection(game: string)
    ensures GetGameValidator(game) == RiotIdValidator <==> SameIgnoringCase(game, "valorant")
    ensures GetGameValidator(game) == PubgIdValidator <==>
            SameIgnoringCase(game, "pubg") || SameIgnoringCase(game, "bgmi")
    ensures GetGameValidator(game) == FreeFireUidValidator <==>
            SameIgnoringCase(game, "freefire") || SameIgnoringCase(game, "free fire")
  {
    LowerCaseIs(game, "valorant");
    LowerCaseIs(game, "pubg");
    LowerCaseIs(game, "bgmi");
    LowerCaseIs(game, "freefire");
    LowerCaseIs(game, "free fire");
  }

  /** Two spellings of a game name that differ only in case select the same validator. */
  lemma GameValidatorIgnoresCase(a: string, b: string)
    requires SameIgnoringCase(a, b)
    ensures GetGameValidator(a) == GetGameValidator(b)
  {
    assert ToLowerCase(a) == ToLowerCase(b);
  }

  /** Any game name other than the five known ones selects a validator that accepts every ID. */
  lemma UnknownGameAcceptsEveryId(game: string, id: string)
    requires !SameIgnoringCase(game, "valorant")
    requires !SameIgnoringCase(game, "pubg") && !SameIgnoringCase(game, "bgmi")
    requires !SameIgnoringCase(game, "freefire") && !SameIgnoringCase(game, "free fire")
    ensures GetGameValidator(game) == AcceptAnyId && Accepts(GetGameValidator(game), id)
  {
    GameValidatorSelection(game);
  }

  // --------------------------------------------------------------- tiers

  /** The three values the tier parameter's type admits. */
  predicate IsTier(tier: string) {
    tier == "low" || tier == "medium" || tier == "high"
  }

  function GetTierColor(tier: string): string {
    match tier
    case "low" => "text-neon-green"
    case "medium" => "text-neon-yellow"
    case "high" => "text-neon-pink"
    case _ => "text-foreground"
  }

  function GetTierLabel(tier: string): string {
    match tier
    case "low" => "Grassroots"
    case "medium" => "Challenger"
    case "high" => "Elite"
    case _ => tier
  }

  /** Each of the three tiers gets one of the three labels and one of the three neon colours, never the fallback. */
  lemma TierMappingsAreTotal(t: string)
    requires IsTier(t)
    ensures GetTierLabel(t) in {"Grassroots", "Challenger", "Elite"}
    ensures GetTierColor(t) in {"text-neon-green", "text-neon-yellow", "text-neon-pink"}
  {
  }

  /** Two different tiers never share a label or a colour. */
  lemma TierMappingsAreDistinct(t: string, u: string)
    requires IsTier(t) && IsTier(u) && t != u
    ensures GetTierLabel(t) != GetTierLabel(u) && GetTierColor(t) != GetTierColor(u)
  {
  }

  /** Labelling is idempotent: a label is not itself a tier, so it labels itself. */
  lemma TierLabelIdempotent(tier: string)
    ensures GetTierLabel(GetTierLabel(tier)) == GetTierLabel(tier)
    ensures !IsTier(tier) ==> GetTierLabel(tier) == tier
  {
  }
}
