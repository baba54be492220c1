/**
 * The HTTP status rule of the "Get Weather" button callback
 * (src/main.rs:126-154): status 200 (OK) goes on to decode the body; six
 * other codes raise an alert with a fixed text; every remaining code raises
 * the alert "HTTP Error". Status codes are those of section 15 of RFC 9110.
 */
module Status {
  import opened Wrappers

  const Ok := 200                   // section 15.3.1 of RFC 9110
  const MovedPermanently := 301     // section 15.4.2
  const BadRequest := 400           // section 15.5.1
  const Forbidden := 403            // section 15.5.4
  const NotFound := 404             // section 15.5.5
  const InternalServerError := 500  // section 15.6.1
  const BadGateway := 502           // section 15.6.3

  /** The text of the alert for a status the rule does not name. */
  const GenericError := "HTTP Error"

  /** What the callback does with a status: decode the body, or show an alert. */
  datatype Verdict = Decode | Alert(message: string)

  /** The status rule as the source writes it, arm by arm. */
  function Classify(status: int): Verdict
  {
    if status == Ok then Decode
    else if status == NotFound then Alert("City Not Found")
    else if status == BadRequest then Alert("Bad Request.Check the city name")
    else if status == Forbidden then Alert("Access denied")
    else if status == BadGateway then Alert("Bad Gateway")
    else if status == InternalServerError then Alert("Internal Server Error")
    else if status == MovedPermanently then Alert("Moved Permanently")
    else Alert(GenericError)
  }

  // ---------------------------------------------------------------------
  // The same rule as data: a table of named statuses and a lookup.
  // ---------------------------------------------------------------------

  /** The statuses that have an alert text of their own, in source order. */
  const AlertTable: seq<(int, string)> := [
    (NotFound, "City Not Found"),
    (BadRequest, "Bad Request.Check the city name"),
    (Forbidden, "Access denied"),
    (BadGateway, "Bad Gateway"),
    (InternalServerError, "Internal Server Error"),
    (MovedPermanently, "Moved Permanently")
  ]

  /** The text of the first entry for `key`, or `None` when the table has none. */
  function Lookup(table: seq<(int, string)>, key: int): (r: Option<string>)
    ensures r.None? <==> forall i :: 0 <= i < |table| ==> table[i].0 != key
    ensures r.Some? ==> exists i :: 0 <= i < |table| && table[i] == (key, r.value)
  {
    if table == [] then None
    else if table[0].0 == key then Some(table[0].1)
    else
      var r := Lookup(table[1..], key);
      assert forall i :: 1 <= i < |table| ==> table[i] == table[1..][i - 1];
      r
  }

  /** The earliest entry for a key decides the text the lookup gives. */
  lemma {:induction false} LookupIsFirst(table: seq<(int, string)>, k: nat, key: int)
    requires k < |table| && table[k].0 == key
    requires forall j :: 0 <= j < k ==> table[j].0 != key
    ensures Lookup(table, key) == Some(table[k].1)
  {
    if k > 0 {
      assert table[0].0 != key;
      LookupIsFirst(table[1..], k - 1, key);
    }
  }

  /** Every status other than 200 raises an alert: the table's text when the
      table names it, and "HTTP Error" otherwise. */
  lemma ClassifyIsTableLookup(status: int)
    ensures Classify(status) ==
      if status == Ok then Decode
      else match Lookup(AlertTable, status)
        case Some(text) => Alert(text)
        case None => Alert(GenericError)
  {
    var r := Lookup(AlertTable, status);
    if r.Some? {
      var i :| 0 <= i < |AlertTable| && AlertTable[i] == (status, r.value);
    } else {
      assert forall i :: 0 <= i < |AlertTable| ==> AlertTable[i].0 != status;
      assert AlertTable[0].0 != status && AlertTable[1].0 != status && AlertTable[2].0 != status;
      assert AlertTable[3].0 != status && AlertTable[4].0 != status && AlertTable[5].0 != status;
    }
  }

  /** Only 200 goes on to decode the body. */
  lemma OnlyOkDecodes(status: int)
    ensures Classify(status) == Decode <==> status == 200
  {
  }

  /** The exact alert texts of the named statuses, independent of the body. */
  lemma NamedAlerts()
    ensures Classify(404) == Alert("City Not Found")
    ensures Classify(400) == Alert("Bad Request.Check the city name")
    ensures Classify(403) == Alert("Access denied")
    ensures Classify(502) == Alert("Bad Gateway")
    ensures Classify(500) == Alert("Internal Server Error")
    ensures Classify(301) == Alert("Moved Permanently")
  {
  }

  /** "HTTP Error" is raised for exactly the statuses the rule does not name. */
  lemma GenericAlertExactly(status: int)
    ensures Classify(status) == Alert(GenericError) <==>
      status !in {200, 301, 400, 403, 404, 500, 502}
  {
  }

  /** Different named statuses raise different alerts, so an alert text
      identifies the status that caused it (and "HTTP Error" names none). */
  lemma AlertIdentifiesStatus(s: int, t: int)
    requires Classify(s) == Classify(t)
    requires s in {200, 301, 400, 403, 404, 500, 502}
    ensures s == t
  {
  }
}
