/** Reading the actual bill (internal/billing/loader.go): the first CSV record
    whose repository and period match gives the billed cost. The CSV reader's
    output is given as a sequence: each entry is either a record (its fields)
    or the error the reader reported for it. strconv.ParseFloat is a parameter. */
module Billing {
  import opened Common

  datatype BillingError =
    | ReadFailed(reason: string)
    | InvalidCost(line: nat)
    | NoMatch(repo: string, period: string)

  type Record = seq<string>

  /** The record at a line is the row sought: it has three fields, it is not
      the header line, and its trimmed repository and period are the ones
      asked for. */
  predicate Matches(rec: Record, line: nat, repo: string, period: string) {
    |rec| >= 3
    && !(line == 1 && EqualFold(TrimSpace(rec[0]), "repo"))
    && TrimSpace(rec[0]) == repo && TrimSpace(rec[1]) == period
  }

  /** What the loader reports for the records left, after `line` records read. */
  function Outcome(records: seq<Result<Record, string>>, line: nat, repo: string, period: string,
                   parseFloat: string -> Option<real>): Result<real, BillingError>
  {
    if records == [] then Err(NoMatch(repo, period))
    else match records[0]
      case Err(reason) => Err(ReadFailed(reason))
      case Ok(rec) =>
        if Matches(rec, line + 1, repo, period) then
          match parseFloat(TrimSpace(rec[2]))
          case None => Err(InvalidCost(line + 1))
          case Some(v) => Ok(v)
        else Outcome(records[1..], line + 1, repo, period, parseFloat)
  }

  /** LoadActualFromCSV, from the reader's output on. */
  method LoadActual(records: seq<Result<Record, string>>, repo: string, period: string,
                    parseFloat: string -> Option<real>) returns (r: Result<real, BillingError>)
    ensures r == Outcome(records, 0, repo, period, parseFloat)
  {
    var line := 0;
    var i := 0;
    while i < |records|
      invariant 0 <= i <= |records| && line == i
      invariant Outcome(records, 0, repo, period, parseFloat)
             == Outcome(records[i..], line, repo, period, parseFloat)
    {
      assert records[i..][0] == records[i];
      assert records[i..][1..] == records[i + 1..];
      if records[i].Err? {
        return Err(ReadFailed(records[i].error));
      }
      var rec := records[i].value;
      line := line + 1;
      i := i + 1;
      if |rec| < 3 {
        continue;
      }
      var repoVal := TrimSpace(rec[0]);
      var periodVal := TrimSpace(rec[1]);
      var costVal := TrimSpace(rec[2]);
      if line == 1 && EqualFold(repoVal, "repo") {
        continue;
      }
      if repoVal != repo || periodVal != period {
        continue;
      }
      var fv := parseFloat(costVal);
      if fv.None? {
        return Err(InvalidCost(line));
      }
      return Ok(fv.value);
    }
    return Err(NoMatch(repo, period));
  }

  /** The first matching record decides: its cost if it parses, otherwise an
      error naming its line, which counts every record before it, short ones
      included. Later records are never looked at. */
  lemma {:induction false} FirstMatchDecides(records: seq<Result<Record, string>>, line: nat,
                                             repo: string, period: string,
                                             parseFloat: string -> Option<real>, k: int)
    requires 0 <= k < |records| && records[k].Ok?
    requires Matches(records[k].value, line + k + 1, repo, period)
    requires forall j :: 0 <= j < k ==>
      records[j].Ok? && !Matches(records[j].value, line + j + 1, repo, period)
    ensures Outcome(records, line, repo, period, parseFloat)
         == match parseFloat(TrimSpace(records[k].value[2]))
            case None => Err(InvalidCost(line + k + 1))
            case Some(v) => Ok(v)
  {
    if k > 0 {
      assert records[0].Ok? && !Matches(records[0].value, line + 1, repo, period);
      assert forall j :: 0 <= j < k - 1 ==> records[1..][j] == records[j + 1];
      FirstMatchDecides(records[1..], line + 1, repo, period, parseFloat, k - 1);
    }
  }

  /** With every record read and none matching, the result is the no-match error. */
  lemma {:induction false} NoMatchIsError(records: seq<Result<Record, string>>, line: nat,
                                          repo: string, period: string,
                                          parseFloat: string -> Option<real>)
    requires forall j :: 0 <= j < |records| ==>
      records[j].Ok? && !Matches(records[j].value, line + j + 1, repo, period)
    ensures Outcome(records, line, repo, period, parseFloat) == Err(NoMatch(repo, period))
  {
    if records != [] {
      assert records[0].Ok? && !Matches(records[0].value, line + 1, repo, period);
      assert forall j :: 0 <= j < |records| - 1 ==> records[1..][j] == records[j + 1];
      NoMatchIsError(records[1..], line + 1, repo, period, parseFloat);
    }
  }

  /** A successful result is always the cost of some record. */
  lemma {:induction false} ResultFromRecord(records: seq<Result<Record, string>>, line: nat,
                                            repo: string, period: string,
                                            parseFloat: string -> Option<real>)
    requires Outcome(records, line, repo, period, parseFloat).Ok?
    ensures exists k ::
      && 0 <= k < |records| && records[k].Ok?
      && Matches(records[k].value, line + k + 1, repo, period)
      && parseFloat(TrimSpace(records[k].value[2])) == Some(Outcome(records, line, repo, period, parseFloat).value)
  {
    var rec := records[0].value;
    if !Matches(rec, line + 1, repo, period) {
      ResultFromRecord(records[1..], line + 1, repo, period, parseFloat);
      var k :| 0 <= k < |records[1..]| && records[1..][k].Ok?
        && Matches(records[1..][k].value, line + 1 + k + 1, repo, period)
        && parseFloat(TrimSpace(records[1..][k].value[2]))
           == Some(Outcome(records[1..], line + 1, repo, period, parseFloat).value);
      assert records[k + 1] == records[1..][k];
    } else {
      assert records[0].Ok? && Matches(records[0].value, line + 0 + 1, repo, period);
    }
  }

  /** A first record naming the repository "repo", in any case, is a header
      and skipped, even when "repo" is the repository asked for; on any later
      line the same record is an ordinary row. */
  lemma HeaderSkipped(rec: Record, rest: seq<Result<Record, string>>, repo: string, period: string,
                      parseFloat: string -> Option<real>)
    requires |rec| >= 3 && EqualFold(TrimSpace(rec[0]), "repo")
    ensures Outcome([Ok(rec)] + rest, 0, repo, period, parseFloat)
         == Outcome(rest, 1, repo, period, parseFloat)
    ensures TrimSpace(rec[0]) == repo && TrimSpace(rec[1]) == period ==> Matches(rec, 2, repo, period)
  {
    assert ([Ok(rec)] + rest)[1..] == rest;
  }

  /** A record with fewer than three fields never matches, but the next
      record's line number still counts it. */
  lemma ShortRecordSkipped(rec: Record, rest: seq<Result<Record, string>>, line: nat,
                           repo: string, period: string, parseFloat: string -> Option<real>)
    requires |rec| < 3
    ensures Outcome([Ok(rec)] + rest, line, repo, period, parseFloat)
         == Outcome(rest, line + 1, repo, period, parseFloat)
  {
    assert ([Ok(rec)] + rest)[1..] == rest;
  }
}
