/**
 * The tournament list page (src/app/tournaments/page.tsx): the mock
 * tournaments, the game/tier filter in which "All" is a wildcard, the
 * "Showing n tournament(s)" label, the empty-state condition and the
 * remaining slots of each card.
 */
module Tournaments {
  import Decimal

  datatype Tournament = Tournament(
    id: string, name: string, game: string, tier: string,
    perPersonFee: int, prizePool: int, maxTeams: int, participants: int,
    minPlayers: int, maxPlayers: int, startDate: string, status: string, color: string)

  /** The filter buttons. */
  const Games := ["All", "Valorant", "PUBG", "BGMI", "Free Fire"]
  const Tiers := ["All", "Grassroots", "Challenger", "Elite"]

  const MockTournaments := [
    Tournament("1", "Valorant Champions League Season 5", "Valorant", "Elite",
               5000, 500000, 32, 24, 5, 5, "2026-02-15", "Registering", "from-red-500 to-pink-500"),
    Tournament("2", "PUBG Mobile Grandmaster Pro League", "PUBG", "Challenger",
               1000, 250000, 64, 48, 4, 4, "2026-02-20", "Registering", "from-yellow-500 to-orange-500"),
    Tournament("3", "BGMI Grassroots Championship", "BGMI", "Grassroots",
               100, 50000, 128, 112, 4, 4, "2026-02-10", "Registering", "from-blue-500 to-cyan-500"),
    Tournament("4", "Free Fire Elite Invitational", "Free Fire", "Elite",
               3000, 300000, 24, 18, 4, 4, "2026-03-01", "Registering", "from-purple-500 to-pink-500"),
    Tournament("5", "Valorant Grassroots Qualifiers", "Valorant", "Grassroots",
               200, 75000, 96, 72, 5, 5, "2026-02-12", "Registering", "from-red-500 to-pink-500"),
    Tournament("6", "PUBG Challenger Series Spring", "PUBG", "Challenger",
               1500, 400000, 48, 36, 4, 4, "2026-02-18", "Registering", "from-yellow-500 to-orange-500")
  ]

  /** The filter's callback: game and tier each match, "All" matching anything. */
  predicate Selected(t: Tournament, selectedGame: string, selectedTier: string) {
    (selectedGame == "All" || t.game == selectedGame) && (selectedTier == "All" || t.tier == selectedTier)
  }

  /** `a` can be obtained from `b` by deleting elements, keeping the order of the rest. */
  ghost predicate IsSubsequence<T>(a: seq<T>, b: seq<T>)
    decreases |b|
  {
    a == [] || (b != [] && ((a[0] == b[0] && IsSubsequence(a[1..], b[1..])) || IsSubsequence(a, b[1..])))
  }

  /** `filteredTournaments` */
  function FilterTournaments(ts: seq<Tournament>, selectedGame: string, selectedTier: string): (r: seq<Tournament>)
    ensures |r| <= |ts|
    ensures IsSubsequence(r, ts)
    ensures forall t | t in r :: t in ts && Selected(t, selectedGame, selectedTier)
    ensures forall t | t in ts && Selected(t, selectedGame, selectedTier) :: t in r
  {
    if ts == [] then []
    else
      var rest := FilterTournaments(ts[1..], selectedGame, selectedTier);
      if Selected(ts[0], selectedGame, selectedTier) then
        assert ([ts[0]] + rest)[1..] == rest;
        [ts[0]] + rest
      else rest
  }

  /**
   * Each tournament that passes the filter appears as often as in the input,
   * and each that does not is gone.
   */
  lemma {:induction false} FilterKeepsMultiplicity(ts: seq<Tournament>, game: string, tier: string, t: Tournament)
    ensures multiset(FilterTournaments(ts, game, tier))[t] == if Selected(t, game, tier) then multiset(ts)[t] else 0
  {
    if ts != [] {
      FilterKeepsMultiplicity(ts[1..], game, tier, t);
      assert ts == [ts[0]] + ts[1..];
    }
  }

  /** With both selections "All" the list is shown unchanged. */
  lemma {:induction false} AllAllShowsEverything(ts: seq<Tournament>)
    ensures FilterTournaments(ts, "All", "All") == ts
  {
    if ts != [] {
      AllAllShowsEverything(ts[1..]);
      assert [ts[0]] + ts[1..] == ts;
    }
  }

  /** Filtering keeps the relative order: filtering a concatenation concatenates the filtered parts. */
  lemma {:induction false} FilterDistributes(a: seq<Tournament>, b: seq<Tournament>, game: string, tier: string)
    ensures FilterTournaments(a + b, game, tier) == FilterTournaments(a, game, tier) + FilterTournaments(b, game, tier)
  {
    if a != [] {
      assert (a + b)[1..] == a[1..] + b;
      FilterDistributes(a[1..], b, game, tier);
    } else {
      assert a + b == b;
    }
  }

  /** Filtering an already filtered list again changes nothing. */
  lemma {:induction false} FilterIdempotent(ts: seq<Tournament>, game: string, tier: string)
    ensures FilterTournaments(FilterTournaments(ts, game, tier), game, tier) == FilterTournaments(ts, game, tier)
  {
    if ts != [] {
      FilterIdempotent(ts[1..], game, tier);
      var rest := FilterTournaments(ts[1..], game, tier);
      if Selected(ts[0], game, tier) {
        assert ([ts[0]] + rest)[1..] == rest;
      }
    }
  }

  /** "Showing {n} tournament{n !== 1 ? "s" : ""}" */
  function CountLabel(count: nat): string {
    "Showing " + Decimal.Render(count) + " tournament" + (if count != 1 then "s" else "")
  }

  /** The label is plural exactly when the count is not one. */
  lemma CountLabelPlural(count: nat)
    ensures var text := CountLabel(count);
            text[|text| - 1] == 's' <==> count != 1
  {
  }

  /** The "No tournaments found" block is shown when the filtered list is empty. */
  predicate ShowsEmptyState(ts: seq<Tournament>, selectedGame: string, selectedTier: string) {
    |FilterTournaments(ts, selectedGame, selectedTier)| == 0
  }

  /** The empty state shows exactly when no tournament satisfies both conditions. */
  lemma EmptyStateExactlyWhenNothingMatches(ts: seq<Tournament>, game: string, tier: string)
    ensures ShowsEmptyState(ts, game, tier) <==> forall t | t in ts :: !Selected(t, game, tier)
  {
    var r := FilterTournaments(ts, game, tier);
    if r != [] {
      assert r[0] in r;
    }
  }

  /** "{maxTeams - participants} slots remaining" */
  function SlotsRemaining(t: Tournament): int {
    t.maxTeams - t.participants
  }

  /**
   * Every mock tournament has between zero and `maxTeams` slots left, its
   * game and tier are among the filter buttons, and its team size is a range.
   */
  lemma MockTournamentsWellFormed()
    ensures forall t | t in MockTournaments ::
              && 0 <= SlotsRemaining(t) <= t.maxTeams
              && t.game in Games[1..] && t.tier in Tiers[1..]
              && 1 <= t.minPlayers <= t.maxPlayers
  {
  }
}
