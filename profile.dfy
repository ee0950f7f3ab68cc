/** The player profile `UserData`: a username and, per kind of opponent, a
    tally of wins and losses, kept here in memory. */
module Profile {
  import opened Wrappers
  import Strings

  /** One `{"wins": …, "losses": …}` record. */
  datatype Tally = Tally(wins: int, losses: int)

  const MaxNameLength := 12
  const DefaultName: string := "Player"

  /** The stats key a game mode is recorded under; `None` for an unknown mode. */
  function StatsKey(mode: string): Option<string>
  {
    if mode == "single" then Some("vs_ai")
    else if mode == "local" then Some("vs_local")
    else if mode == "online_host" || mode == "online_client" then Some("vs_online")
    else None
  }

  /** The three tallies every profile has. */
  predicate HasCounters(stats: map<string, Tally>) {
    "vs_ai" in stats && "vs_local" in stats && "vs_online" in stats
  }

  /** The stats of a new profile: every tally at zero. */
  function DefaultStats(): (stats: map<string, Tally>)
    ensures HasCounters(stats)
    ensures forall k :: k in stats ==> stats[k] == Tally(0, 0)
  {
    map["vs_ai" := Tally(0, 0), "vs_local" := Tally(0, 0), "vs_online" := Tally(0, 0)]
  }

  /** All games recorded in the three tallies. */
  function Games(stats: map<string, Tally>): int
    requires HasCounters(stats)
  {
    stats["vs_ai"].wins + stats["vs_ai"].losses
    + stats["vs_local"].wins + stats["vs_local"].losses
    + stats["vs_online"].wins + stats["vs_online"].losses
  }

  /** All wins recorded in the three tallies. */
  function Wins(stats: map<string, Tally>): int
    requires HasCounters(stats)
  {
    stats["vs_ai"].wins + stats["vs_local"].wins + stats["vs_online"].wins
  }

  /** The name `set_username` stores for `name`: the name without its
      surrounding whitespace, if that is 1 to 12 characters long. */
  function AcceptedName(name: string): Option<string>
  {
    var trimmed := Strings.Strip(name);
    if 0 < |trimmed| <= MaxNameLength then Some(trimmed) else None
  }

  /** The stats after `record_result(mode, won)`. */
  function Recorded(stats: map<string, Tally>, mode: string, won: bool): map<string, Tally>
    requires HasCounters(stats)
  {
    match StatsKey(mode)
    case None => stats
    case Some(key) =>
      var t := stats[key];
      stats[key := if won then t.(wins := t.wins + 1) else t.(losses := t.losses + 1)]
  }

  /** The single-player, local and online modes go to three different
      tallies, and both online roles share one. */
  lemma ModesToTallies()
    ensures StatsKey("single") == Some("vs_ai") && StatsKey("local") == Some("vs_local")
    ensures StatsKey("online_host") == StatsKey("online_client") == Some("vs_online")
    ensures forall m :: StatsKey(m).Some? ==> StatsKey(m).value in DefaultStats()
  {
  }

  /** Recording a result counts exactly one game, a win exactly when `won`,
      in the tally of the mode and nowhere else; an unknown mode changes
      nothing. */
  lemma RecordedCountsOneGame(stats: map<string, Tally>, mode: string, won: bool)
    requires HasCounters(stats)
    ensures var r := Recorded(stats, mode, won);
      && HasCounters(r) && r.Keys == stats.Keys
      && Games(r) == Games(stats) + (if StatsKey(mode).Some? then 1 else 0)
      && Wins(r) == Wins(stats) + (if StatsKey(mode).Some? && won then 1 else 0)
      && (forall k :: k in stats && Some(k) != StatsKey(mode) ==> r[k] == stats[k])
      && (StatsKey(mode).Some? ==>
            var key := StatsKey(mode).value;
            r[key].wins >= stats[key].wins && r[key].losses >= stats[key].losses)
  {
  }

  /** An accepted name is 1 to 12 characters with no surrounding whitespace,
      and entering it again is accepted unchanged. */
  lemma AcceptedNameStable(name: string)
    ensures AcceptedName(name).Some? ==>
      var n := AcceptedName(name).value;
      1 <= |n| <= MaxNameLength && Strings.Trimmed(Strings.StrBlanks, n) && AcceptedName(n) == Some(n)
  {
    Strings.StripIdempotent(name);
  }

  /** Names that are blank, or longer than 12 characters once trimmed, are refused. */
  lemma AcceptedNameRefuses(name: string)
    ensures Strings.AllBlank(Strings.StrBlanks, name) ==> AcceptedName(name).None?
    ensures |Strings.Strip(name)| > MaxNameLength ==> AcceptedName(name).None?
  {
    if Strings.AllBlank(Strings.StrBlanks, name) {
      Strings.StripPadded(name, [], []);
      assert name + [] + [] == name;
    }
  }

  class UserData {
    var username: string
    var stats: map<string, Tally>

    ghost predicate Valid()
      reads this
    {
      HasCounters(stats)
    }

    /** A profile with no saved file: the default name and empty tallies. */
    constructor ()
      ensures Valid() && username == DefaultName && stats == DefaultStats()
    {
      username := DefaultName;
      stats := DefaultStats();
    }

    /** `set_username`: store the trimmed name if it is 1 to 12 characters
      long and report whether it was stored. */
    method SetUsername(name: string) returns (ok: bool)
      modifies this
      ensures ok == AcceptedName(name).Some?
      ensures username == if ok then AcceptedName(name).value else old(username)
      ensures stats == old(stats)
    {
      var trimmed := Strings.Strip(name);
      if 0 < |trimmed| <= MaxNameLength {
        username := trimmed;
        return true;
      }
      return false;
    }

    /** `record_result`: count one win or loss in the tally of `mode`. */
    method RecordResult(mode: string, won: bool)
      requires Valid()
      modifies this
      ensures Valid() && stats == Recorded(old(stats), mode, won)
      ensures username == old(username)
    {
      var key := StatsKey(mode);
      if key.None? {
        return;
      }
      var tally := stats[key.value];
      if won {
        stats := stats[key.value := tally.(wins := tally.wins + 1)];
      } else {
        stats := stats[key.value := tally.(losses := tally.losses + 1)];
      }
    }
  }

}
