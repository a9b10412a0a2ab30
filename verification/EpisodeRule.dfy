/**
 The episode rule: when a match opens an episode, escalates it or stays silent
 (app/notifications/services/episodes.py).
 */
module EpisodeRule {
  import opened Common

  datatype Source = Aemet | Effis | Ign

  datatype Action = Open | Escalate | Touch

  /** What the rule reads of the open episode of a key. */
  datatype OpenEpisode = OpenEpisode(id: nat, notified: int, expiresAt: Option<Time>)

  /** The string attributes of an event; other JSON values are not modelled. */
  type Attrs = map<string, string>

  function SourceName(source: Source): string {
    match source
    case Aemet => "aemet"
    case Effis => "effis"
    case Ign => "ign"
  }

  /** Python's `attrs.get(name) or otherwise`: an empty string counts as absent. */
  function GetOr(attrs: Attrs, name: string, otherwise: string): string {
    if name in attrs && attrs[name] != "" then attrs[name] else otherwise
  }

  function BeforeSemicolon(s: string): string {
    if s == "" || s[0] == ';' then "" else [s[0]] + BeforeSemicolon(s[1..])
  }

  /** The characters Python's `str.strip()` removes. */
  predicate IsSpace(c: char) {
    || c == ' ' || '\t' <= c <= '\r' || '\U{001C}' <= c <= '\U{001F}'
    || c == '\U{0085}' || c == '\U{00A0}' || c == '\U{1680}' || '\U{2000}' <= c <= '\U{200A}'
    || c == '\U{2028}' || c == '\U{2029}' || c == '\U{202F}' || c == '\U{205F}' || c == '\U{3000}'
  }

  function StripLeft(s: string): string {
    if s != "" && IsSpace(s[0]) then StripLeft(s[1..]) else s
  }

  function StripRight(s: string): string {
    if s != "" && IsSpace(s[|s| - 1]) then StripRight(s[..|s| - 1]) else s
  }

  function PhenomenonCode(attrs: Attrs): string {
    var raw := GetOr(attrs, "phenomenon", GetOr(attrs, "event", "desconocido"));
    StripRight(StripLeft(BeforeSemicolon(raw)))
  }

  function EpisodeKey(source: Source, externalId: string, attrs: Attrs): string {
    if source == Aemet then "aemet:" + PhenomenonCode(attrs)
    else SourceName(source) + ":" + externalId
  }

  predicate IsAemetKey(key: string) { "aemet:" <= key }

  predicate IsCurrent(episode: Option<OpenEpisode>, batchAt: Time, grace: Time) {
    match episode
    case None => false
    case Some(e) => e.expiresAt.None? || e.expiresAt.value + grace > batchAt
  }

  function Decide(episode: Option<OpenEpisode>, severity: int, batchAt: Time, grace: Time): Action {
    if episode.None? || !IsCurrent(episode, batchAt, grace) then Open
    else if severity > episode.value.notified then Escalate
    else Touch
  }

  // ----- What the rule is for -----

  /** A key tells its source, so sources never share an episode. */
  lemma KeyTellsSource(s1: Source, x1: string, a1: Attrs, s2: Source, x2: string, a2: Attrs)
    requires EpisodeKey(s1, x1, a1) == EpisodeKey(s2, x2, a2)
    ensures s1 == s2
    ensures s1 != Aemet ==> x1 == x2
    ensures IsAemetKey(EpisodeKey(s1, x1, a1)) <==> s1 == Aemet
  {
    var k1, k2 := EpisodeKey(s1, x1, a1), EpisodeKey(s2, x2, a2);
    assert s1 == Aemet ==> k1[0] == 'a' && k1[..6] == "aemet:";
    assert s1 == Effis ==> k1[0] == 'e' && k1[6..] == x1;
    assert s1 == Ign ==> k1[0] == 'i' && k1[4..] == x1;
    assert s2 == Aemet ==> k2[0] == 'a';
    assert s2 == Effis ==> k2[0] == 'e' && k2[6..] == x2;
    assert s2 == Ign ==> k2[0] == 'i' && k2[4..] == x2;
  }

  lemma {:induction false} CutAtSemicolon(code: string, text: string)
    requires ';' !in code
    ensures BeforeSemicolon(code + ";" + text) == code
    ensures BeforeSemicolon(code) == code
  {
    if code != "" {
      assert (code + ";" + text)[1..] == code[1..] + ";" + text;
      CutAtSemicolon(code[1..], text);
    }
  }

  /** Two AEMET messages of one phenomenon fall in one episode, whatever their
      CAP identifiers and whatever text follows the code. */
  lemma UpdatesShareTheEpisode(code: string, t1: string, t2: string, x1: string, x2: string, a1: Attrs, a2: Attrs)
    requires ';' !in code
    requires "phenomenon" in a1 && a1["phenomenon"] == code + ";" + t1
    requires "phenomenon" in a2 && a2["phenomenon"] == code + ";" + t2
    ensures EpisodeKey(Aemet, x1, a1) == EpisodeKey(Aemet, x2, a2)
    ensures EpisodeKey(Aemet, x1, a1) == "aemet:" + StripRight(StripLeft(code))
  {
    CutAtSemicolon(code, t1);
    CutAtSemicolon(code, t2);
  }

  /** The phenomenon is read from its own attribute, or from the name of the event if
      that is absent or empty, and without both is unknown; the key of another source
      carries its external id. */
  lemma KeyIsReadFrom(x: string, attrs: Attrs)
    ensures "phenomenon" in attrs && attrs["phenomenon"] != "" ==>
              EpisodeKey(Aemet, x, attrs) == "aemet:" + StripRight(StripLeft(BeforeSemicolon(attrs["phenomenon"])))
    ensures ("phenomenon" !in attrs || attrs["phenomenon"] == "") && "event" in attrs && attrs["event"] != "" ==>
              EpisodeKey(Aemet, x, attrs) == "aemet:" + StripRight(StripLeft(BeforeSemicolon(attrs["event"])))
    ensures ("phenomenon" !in attrs || attrs["phenomenon"] == "") && ("event" !in attrs || attrs["event"] == "") ==>
              EpisodeKey(Aemet, x, attrs) == "aemet:desconocido"
    ensures EpisodeKey(Effis, x, attrs) == "effis:" + x && EpisodeKey(Ign, x, attrs) == "ign:" + x
  {
    UnknownStays();
    hide BeforeSemicolon, StripLeft, StripRight;
  }

  lemma UnknownStays()
    ensures StripRight(StripLeft(BeforeSemicolon("desconocido"))) == "desconocido"
  {
    var unknown := "desconocido";
    assert unknown[0] == 'd' && unknown[|unknown| - 1] == 'o';
    WholeWithoutSemicolon(unknown);
    hide BeforeSemicolon;
  }

  lemma {:induction false} WholeWithoutSemicolon(s: string)
    requires ';' !in s
    ensures BeforeSemicolon(s) == s
  {
    if s != "" { WholeWithoutSemicolon(s[1..]); }
  }

  /** An open episode with an expiry is current until the grace after it has passed,
      one without an expiry for ever; a current one is announced again exactly when
      the severity exceeds what was notified. */
  lemma GraceIsExact(expiresAt: Option<Time>, id: nat, notified: int, severity: int, at: Time, grace: Time)
    ensures var e := OpenEpisode(id, notified, expiresAt);
            && (Decide(Some(e), severity, at, grace) == Open <==> expiresAt.Some? && expiresAt.value + grace <= at)
            && (Decide(Some(e), severity, at, grace) == Escalate <==>
                  (expiresAt.None? || at < expiresAt.value + grace) && severity > notified)
            && (Decide(Some(e), severity, at, grace) == Touch <==>
                  (expiresAt.None? || at < expiresAt.value + grace) && severity <= notified)
    ensures Decide(None, severity, at, grace) == Open
  {
  }

  /** The three actions, told apart by what the caller can observe. A later batch
      never finds current what an earlier one found expired. */
  lemma RuleOfEpisodes(e: Option<OpenEpisode>, severity: int, at: Time, later: Time, grace: Time)
    requires at <= later
    ensures Decide(e, severity, at, grace) == Open <==> !IsCurrent(e, at, grace)
    ensures IsCurrent(e, later, grace) ==> IsCurrent(e, at, grace)
    ensures Decide(e, severity, later, grace) == Escalate ==> Decide(e, severity, at, grace) == Escalate
    ensures Decide(e, severity, at, grace) == Touch ==>
              forall s :: s <= severity ==> Decide(e, s, at, grace) == Touch
  {
  }
}
