/**
 * The AI doctor page: one attempt at the consultation server when the
 * browser is online, and otherwise (or when that attempt fails) advice
 * from a local keyword table. The table's contents, the browser's online
 * flag and the server's answer are inputs.
 */
module AiDoctor {
  import opened Wrappers
  import opened Http
  import opened Text

  /** An entry of the local table: keywords, a severity label and the advice. */
  datatype Advice = Advice(keywords: seq<string>, severity: string, advice: string)

  const OnlineSource := "ONLINE (Gemini)"
  const OfflineSource := "OFFLINE (Local Data)"
  const NoMatchText := "No internet. Cannot diagnose complex issues. Please see a doctor."

  /** `d.keywords.some(k => symptom.toLowerCase().includes(k))`: keywords are used as written. */
  predicate Matches(d: Advice, symptom: string) {
    exists i :: 0 <= i < |d.keywords| && Includes(ToLower(symptom), d.keywords[i])
  }

  /** `table.find(...)`, as the position of the first matching entry. */
  function FirstMatch(table: seq<Advice>, symptom: string): (r: Option<nat>)
    ensures r.Some? ==> r.value < |table| && Matches(table[r.value], symptom)
    ensures r.Some? ==> forall j :: 0 <= j < r.value ==> !Matches(table[j], symptom)
    ensures r.None? <==> forall j :: 0 <= j < |table| ==> !Matches(table[j], symptom)
    decreases |table|
  {
    if table == [] then None
    else if Matches(table[0], symptom) then Some(0)
    else match FirstMatch(table[1..], symptom)
      case None => None
      case Some(i) => Some(i + 1)
  }

  /** The advice text and source the offline fallback shows. */
  function Fallback(table: seq<Advice>, symptom: string): (r: (string, string))
    ensures r.1 == OfflineSource
    ensures FirstMatch(table, symptom).None? ==> r.0 == NoMatchText
    ensures FirstMatch(table, symptom).Some? ==>
      var d := table[FirstMatch(table, symptom).value];
      r.0 == "[" + d.severity + "] " + d.advice
  {
    match FirstMatch(table, symptom)
    case None => (NoMatchText, OfflineSource)
    case Some(i) => ("[" + table[i].severity + "] " + table[i].advice, OfflineSource)
  }

  /**
   * The advice and source `getHelp` ends with. `online` is the browser's
   * online flag; `server` is the server's answer (its advice, or a failure:
   * a non-ok status or an exception).
   */
  function Consult(table: seq<Advice>, symptom: string, online: bool, server: Ext<string>): (r: (string, string))
    ensures online && server.Ok? ==> r == (server.value, OnlineSource)
    ensures !(online && server.Ok?) ==> r == Fallback(table, symptom)
  {
    if online && server.Ok? then (server.value, OnlineSource) else Fallback(table, symptom)
  }

  /** A failed attempt at the server ends exactly as being offline does. */
  lemma ServerFailureIsOffline(table: seq<Advice>, symptom: string, message: string, any: Ext<string>)
    ensures Consult(table, symptom, true, Fail(message)) == Consult(table, symptom, false, any)
  {
  }

  /** When the server answers, the local table plays no part. */
  lemma OnlineIgnoresTable(t1: seq<Advice>, t2: seq<Advice>, symptom: string, advice: string)
    ensures Consult(t1, symptom, true, Ok(advice)) == Consult(t2, symptom, true, Ok(advice))
  {
  }

  /** Whatever path is taken, the source says whether the advice came from the server. */
  lemma SourceTellsPath(table: seq<Advice>, symptom: string, online: bool, server: Ext<string>)
    ensures Consult(table, symptom, online, server).1 == OnlineSource <==> online && server.Ok?
    ensures Consult(table, symptom, online, server).1 in {OnlineSource, OfflineSource}
  {
    assert OnlineSource != OfflineSource by {
      assert OnlineSource[1] != OfflineSource[1];
    }
  }

  predicate IsUpper(c: char) {
    'A' <= c <= 'Z'
  }

  /**
   * The symptom is lower-cased but the keywords are not: a keyword with an
   * upper-case letter never matches, whatever the symptom says.
   */
  lemma UpperCaseKeywordNeverMatches(symptom: string, k: string, j: int)
    requires 0 <= j < |k| && IsUpper(k[j])
    ensures !Includes(ToLower(symptom), k)
  {
    var lower := ToLower(symptom);
    forall i ensures !OccursAt(lower, k, i) {
      if 0 <= i && i + |k| <= |lower| {
        assert lower[i..i + |k|][j] == LowerChar(symptom[i + j]) != k[j];
      }
    }
    IncludesIffOccurs(lower, k);
  }

  /** The page's state. The attached image only travels to the server and is not modelled. */
  class Page {
    var symptom: string
    var advice: string
    var source: string
    var loading: bool

    constructor ()
      ensures symptom == "" && advice == "" && source == "" && !loading
    {
      symptom := "";
      advice := "";
      source := "";
      loading := false;
    }

    /** `getHelp`. */
    method GetHelp(table: seq<Advice>, online: bool, server: Ext<string>)
      modifies this
      ensures (advice, source) == Consult(table, old(symptom), online, server)
      ensures !loading && symptom == old(symptom)
    {
      loading := true;
      advice := "Thinking...";
      if online {
        match server {
          case Ok(text) =>
            advice := text;
            source := OnlineSource;
            loading := false;
            return;
          case Fail(_) =>
        }
      }
      var found := FirstMatch(table, symptom);
      if found.Some? {
        var d := table[found.value];
        advice := "[" + d.severity + "] " + d.advice;
        source := OfflineSource;
      } else {
        advice := NoMatchText;
        source := OfflineSource;
      }
      loading := false;
    }
  }
}
