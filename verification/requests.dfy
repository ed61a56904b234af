/** Creating a dossier request: a record with a fresh id, a four-digit
    access code and a snapshot of the current report is appended, pending
    payment, to the stored request list. */
module Requests {
  import opened Types
  import opened ReportMerge
  import opened AppModel

  /** The character of a decimal digit. */
  function DigitChar(d: nat): (c: char)
    requires d < 10
    ensures '0' <= c <= '9'
    ensures c as int - '0' as int == d
  {
    (d + '0' as int) as char
  }

  predicate IsDigits(s: string) {
    forall i :: 0 <= i < |s| ==> '0' <= s[i] <= '9'
  }

  /** The decimal notation of a natural number, without leading zeros, as a
      number's string conversion writes it. */
  function DecimalString(n: nat): (s: string)
    ensures |s| >= 1 && IsDigits(s)
    ensures s[0] == '0' ==> n == 0
    decreases n
  {
    if n < 10 then [DigitChar(n)] else DecimalString(n / 10) + [DigitChar(n % 10)]
  }

  /** The number a string of digits denotes. */
  function DecimalValue(s: string): nat
    requires IsDigits(s)
    decreases |s|
  {
    if |s| == 0 then 0 else 10 * DecimalValue(s[..|s| - 1]) + (s[|s| - 1] as int - '0' as int)
  }

  /** Reading back the decimal notation of a number gives the number. */
  lemma {:induction false} DecimalRoundTrip(n: nat)
    ensures DecimalValue(DecimalString(n)) == n
    decreases n
  {
    var s := DecimalString(n);
    if n >= 10 {
      DecimalRoundTrip(n / 10);
      assert s[..|s| - 1] == DecimalString(n / 10);
    }
  }

  function Pow10(k: nat): (p: nat)
    ensures p >= 1
  {
    if k == 0 then 1 else 10 * Pow10(k - 1)
  }

  /** A number is written with at most `k` digits exactly when it is below
      ten to the `k`. */
  lemma {:induction false} DecimalLength(n: nat, k: nat)
    requires k >= 1
    ensures |DecimalString(n)| <= k <==> n < Pow10(k)
    decreases n
  {
    if n >= 10 {
      if k == 1 {
        assert |DecimalString(n)| >= 2;
      } else {
        DecimalLength(n / 10, k - 1);
        assert n / 10 < Pow10(k - 1) <==> n < 10 * Pow10(k - 1);
      }
    } else if k > 1 {
      assert Pow10(k) == 10 * Pow10(k - 1);
    }
  }

  /** Exactly the numbers from 1000 to 9999 are written with four digits. */
  lemma FourDigitCodes(n: nat)
    ensures |DecimalString(n)| == 4 <==> 1000 <= n <= 9999
  {
    DecimalLength(n, 3);
    DecimalLength(n, 4);
    assert Pow10(3) == 1000 && Pow10(4) == 10000;
  }

  /** What the caller is given to show the user. */
  datatype Receipt = Receipt(id: string, accessCode: string)

  /** The result of creating a request: the new state and the receipt, or
      the failure raised when the stored list does not parse. */
  datatype Outcome = Created(app: App, receipt: Receipt) | StoredListUnparsable

  /** The requests already stored; no entry reads as an empty list. */
  function StoredList(s: StoredRequests): seq<DossierRequest>
    requires !s.Unparsable?
  {
    match s
    case NoRequests => []
    case Stored(list) => list
  }

  /** Creates a request for the user with the given id, access code (drawn
      from 1000 to 9999) and timestamp, snapshotting the current report (an
      empty one when there is none), and appends it to the stored list. */
  function CreateRequest(m: App, userName: string, userEmail: string, companyName: string,
                         id: string, code: nat, timestamp: int): (r: Outcome)
    requires 1000 <= code <= 9999
    ensures r.StoredListUnparsable? <==> m.storage.requests.Unparsable?
    ensures r.Created? ==>
      var stored := r.app.storage.requests;
      && stored.Stored?
      && |stored.list| == |StoredList(m.storage.requests)| + 1
      && stored.list[..|stored.list| - 1] == StoredList(m.storage.requests)
      && var req := stored.list[|stored.list| - 1];
         && req.id == id && req.timestamp == timestamp
         && req.userName == userName && req.userEmail == userEmail && req.companyName == companyName
         && req.report == m.report.GetOr(Empty)
         && req.receiptImage == None
         && req.status == PendingPayment
         && req.accessCode == r.receipt.accessCode
         && r.receipt.id == id
         && |r.receipt.accessCode| == 4 && IsDigits(r.receipt.accessCode)
         && DecimalValue(r.receipt.accessCode) == code
    ensures r.Created? ==> r.app.(storage := m.storage) == m
    ensures r.Created? ==> r.app.storage.(requests := m.storage.requests) == m.storage
  {
    if m.storage.requests.Unparsable? then
      StoredListUnparsable
    else
      var accessCode := DecimalString(code);
      FourDigitCodes(code);
      DecimalRoundTrip(code);
      var req := DossierRequest(id, accessCode, timestamp, userName, userEmail, companyName,
                                m.report.GetOr(Empty), None, PendingPayment);
      var list := StoredList(m.storage.requests) + [req];
      assert list[..|list| - 1] == StoredList(m.storage.requests);
      Created(m.(storage := m.storage.(requests := Stored(list))), Receipt(id, accessCode))
  }

  /** Requests accumulate: a second request keeps the first one in place,
      and the list grows by one each time. */
  lemma CreateRequestKeepsEarlier(m: App, name1: string, email1: string, company1: string, id1: string, code1: nat, t1: int,
                                  name2: string, email2: string, company2: string, id2: string, code2: nat, t2: int)
    requires 1000 <= code1 <= 9999 && 1000 <= code2 <= 9999
    requires !m.storage.requests.Unparsable?
    ensures var first := CreateRequest(m, name1, email1, company1, id1, code1, t1);
            && first.Created?
            && var second := CreateRequest(first.app, name2, email2, company2, id2, code2, t2);
               && second.Created?
               && |second.app.storage.requests.list| == |StoredList(m.storage.requests)| + 2
               && second.app.storage.requests.list[..|StoredList(m.storage.requests)| + 1]
                  == first.app.storage.requests.list
  {
  }

  /** A request made while the analysis is still streaming snapshots the
      part of the report assembled so far. */
  lemma RequestSnapshotsPartialReport(m: App, fs: seq<Report>, userName: string, userEmail: string,
                                      companyName: string, id: string, code: nat, timestamp: int)
    requires 1000 <= code <= 9999
    requires !m.storage.requests.Unparsable?
    ensures var s := DeliverAll(StartAnalysis(m), fs);
            var r := CreateRequest(s, userName, userEmail, companyName, id, code, timestamp);
            r.Created? && r.app.storage.requests.list[|r.app.storage.requests.list| - 1].report == Assemble(fs)
  {
    DeliverAllAfterStart(m, fs);
  }
}
