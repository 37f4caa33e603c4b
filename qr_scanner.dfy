/** The security scanner: the scan button's flag, the simulated scan that is
    prepended to the history, the history's statistics and its elapsed-time labels. */
module QRScanner {

  import opened Wrappers
  import opened Text
  import Seqs
  import RelativeTime
  import OrderQueue

  datatype ScanKind = Voucher | Ticket

  /** One entry of the scan history; the timestamp is in milliseconds. */
  datatype ScanResult = ScanResult(
    id: string,
    kind: ScanKind,
    code: string,
    isValid: bool,
    message: string,
    timestamp: int)

  const MsPerMinute: int := 60 * 1000

  /** The three entries the history starts with at time `now`. */
  function InitialHistory(now: int): seq<ScanResult>
  {
    [ ScanResult("1", Voucher, "VOUCHER-001", true, "Free Beer voucher verified", now - 5 * MsPerMinute),
      ScanResult("2", Ticket, "TICKET-VIP-123", true, "VIP event ticket verified", now - 15 * MsPerMinute),
      ScanResult("3", Voucher, "VOUCHER-EXPIRED", false, "Voucher has expired", now - 30 * MsPerMinute) ]
  }

  /** The four statistics under the history. */
  function ValidCount(h: seq<ScanResult>): nat
  {
    |Seqs.Filter(h, (s: ScanResult) => s.isValid)|
  }

  function InvalidCount(h: seq<ScanResult>): nat
  {
    |Seqs.Filter(h, (s: ScanResult) => !s.isValid)|
  }

  function VoucherCount(h: seq<ScanResult>): nat
  {
    |Seqs.Filter(h, (s: ScanResult) => s.kind == Voucher)|
  }

  function TicketCount(h: seq<ScanResult>): nat
  {
    |Seqs.Filter(h, (s: ScanResult) => s.kind == Ticket)|
  }

  /** Every entry is counted as exactly one of valid and invalid, and as exactly one
      of voucher and ticket. */
  lemma CountsPartition(h: seq<ScanResult>)
    ensures ValidCount(h) + InvalidCount(h) == |h|
    ensures VoucherCount(h) + TicketCount(h) == |h|
  {
    Seqs.FilterPartition(h, (s: ScanResult) => s.isValid, (s: ScanResult) => !s.isValid);
    Seqs.FilterPartition(h, (s: ScanResult) => s.kind == Voucher, (s: ScanResult) => s.kind == Ticket);
  }

  /** Prepending an entry raises exactly the two statistics that describe it, by one. */
  lemma CountsOfPrepend(r: ScanResult, h: seq<ScanResult>)
    ensures ValidCount([r] + h) == ValidCount(h) + (if r.isValid then 1 else 0)
    ensures InvalidCount([r] + h) == InvalidCount(h) + (if r.isValid then 0 else 1)
    ensures VoucherCount([r] + h) == VoucherCount(h) + (if r.kind == Voucher then 1 else 0)
    ensures TicketCount([r] + h) == TicketCount(h) + (if r.kind == Ticket then 1 else 0)
  {
    assert ([r] + h)[1..] == h;
  }

  /** The starting history has two valid scans and one invalid, two vouchers and one
      ticket, the newest first. */
  lemma InitialCounts(now: int)
    ensures |InitialHistory(now)| == 3
    ensures ValidCount(InitialHistory(now)) == 2 && InvalidCount(InitialHistory(now)) == 1
    ensures VoucherCount(InitialHistory(now)) == 2 && TicketCount(InitialHistory(now)) == 1
    ensures forall i, j :: 0 <= i < j < 3 ==> InitialHistory(now)[i].timestamp > InitialHistory(now)[j].timestamp
  {
    var h := InitialHistory(now);
    CountsOfPrepend(h[0], h[1..]);
    CountsOfPrepend(h[1], h[2..]);
    CountsOfPrepend(h[2], []);
    assert h == [h[0]] + h[1..] && h[1..] == [h[1]] + h[2..] && h[2..] == [h[2]] + [];
  }

  /** The simulated result as the scan handler builds it, with the three values of
      `Math.random()` given as `kindDraw`, `validDraw` and `messageDraw`. */
  function MockResultAsWritten(now: int, kindDraw: real, validDraw: real, messageDraw: real): ScanResult
  {
    var id := IntToString(now);
    ScanResult(id, if kindDraw > 0.5 then Voucher else Ticket, "SCAN-" + id,
      validDraw > 0.3, if messageDraw > 0.3 then "Successfully verified" else "Invalid or expired code", now)
  }

  /** The message is drawn apart from the verdict, so an invalid scan can announce
      that it was verified, under the "Invalid Code" alert. */
  lemma MockMessageMismatch(now: int)
    ensures !MockResultAsWritten(now, 0.9, 0.1, 0.9).isValid
    ensures MockResultAsWritten(now, 0.9, 0.1, 0.9).message == "Successfully verified"
    ensures AlertTitle(MockResultAsWritten(now, 0.9, 0.1, 0.9)) == "Invalid Code"
  {
  }

  /** The simulated result with its message following its verdict. */
  function MockResult(now: int, kindDraw: real, validDraw: real): ScanResult
  {
    var id := IntToString(now);
    var valid := validDraw > 0.3;
    ScanResult(id, if kindDraw > 0.5 then Voucher else Ticket, "SCAN-" + id,
      valid, if valid then "Successfully verified" else "Invalid or expired code", now)
  }

  /** A simulated result is stamped `now`, its id reads back as `now` and its code is
      "SCAN-" followed by the id; it claims verification exactly when it is valid,
      which happens for a draw above 0.3; and the as-written result differs from it at
      most in the message, and only when the third draw contradicted the second. */
  lemma MockResultRules(now: int, kindDraw: real, validDraw: real, messageDraw: real)
    ensures var r := MockResult(now, kindDraw, validDraw);
      && r.timestamp == now
      && ParseInt(r.id) == Some(now)
      && r.code == "SCAN-" + r.id
      && (r.isValid <==> validDraw > 0.3)
      && (r.message == "Successfully verified" <==> r.isValid)
      && (r.kind == Voucher <==> kindDraw > 0.5)
    ensures MockResultAsWritten(now, kindDraw, validDraw, messageDraw).(message := MockResult(now, kindDraw, validDraw).message)
      == MockResult(now, kindDraw, validDraw)
    ensures (messageDraw > 0.3 <==> validDraw > 0.3) ==>
      MockResultAsWritten(now, kindDraw, validDraw, messageDraw) == MockResult(now, kindDraw, validDraw)
  {
    ParseIntRoundTrip(now);
  }

  /** The title of the alert raised when a scan completes. */
  function AlertTitle(r: ScanResult): string
  {
    if r.isValid then "Success" else "Invalid Code"
  }

  /** The scanner area's caption and the button's label. */
  function ScannerCaption(isScanning: bool): string
  {
    if isScanning then "Scanning..." else "Ready to scan QR codes"
  }

  function ButtonLabel(isScanning: bool): string
  {
    if isScanning then "Scanning..." else "Start Scan"
  }

  /** Caption and button both read "Scanning..." exactly while a scan runs, and the
      idle caption and the idle label differ. */
  lemma ScanControlsRules(isScanning: bool)
    ensures ScannerCaption(isScanning) == "Scanning..." <==> isScanning
    ensures ButtonLabel(isScanning) == "Scanning..." <==> isScanning
    ensures ScannerCaption(isScanning) == ButtonLabel(isScanning) <==> isScanning
  {
  }

  /** The label of a history entry stamped `timestamp`, seen at `now`. */
  function FormatTime(now: int, timestamp: int): string
  {
    RelativeTime.ClockLabel(RelativeTime.ElapsedMinutes(now, timestamp))
  }

  /** The labels are those of the kitchen queue: "Just now" below a minute (or for a
      future stamp), "Nm ago" with the minutes readable back below an hour, and from
      an hour on "Hh Mm ago" whose hours and minutes, M below 60, make up the elapsed
      minutes. */
  lemma FormatTimeRules(now: int, timestamp: int)
    ensures FormatTime(now, timestamp) == OrderQueue.FormatTime(now, timestamp)
    ensures FormatTime(now, timestamp) == "Just now" <==> now - timestamp < MsPerMinute
    ensures var mins := (now - timestamp) / MsPerMinute;
      1 <= mins < 60 ==> ParseInt(FormatTime(now, timestamp)) == Some(mins)
    ensures var mins := (now - timestamp) / MsPerMinute;
      mins >= 60 ==>
        exists h: nat, m: nat :: (h >= 1 && m < 60 && h * 60 + m == mins
          && FormatTime(now, timestamp) == NatToString(h) + ("h " + RelativeTime.AgoLabel(m, 'm')))
  {
    var mins := RelativeTime.ElapsedMinutes(now, timestamp);
    OrderQueue.FormatTimeRule(now, timestamp, timestamp);
    if 1 <= mins < 60 {
      RelativeTime.ParseAgoLabel(mins, 'm');
    }
    if mins >= 60 {
      RelativeTime.ClockLabelParts(mins);
    }
  }

  /** The scanner's state: whether a scan is under way, and the history, newest first. */
  class Scanner {
    var isScanning: bool
    var scanHistory: seq<ScanResult>

    constructor(now: int)
      ensures !isScanning && scanHistory == InitialHistory(now)
    {
      isScanning := false;
      scanHistory := InitialHistory(now);
    }

    /** The button is disabled while a scan is under way. */
    predicate ButtonEnabled()
      reads this
    {
      !isScanning
    }

    /** A press of the scan button: ignored while disabled, and otherwise it starts a
        scan. Either way a scan is then under way and the history is untouched. */
    method PressScanButton() returns (started: bool)
      modifies this
      ensures started <==> old(ButtonEnabled())
      ensures isScanning && !ButtonEnabled()
      ensures scanHistory == old(scanHistory)
    {
      started := !isScanning;
      if started {
        isScanning := true;
      }
    }

    /** The scan's timer firing at `now` with the three draws of the handler: the
        result as the handler builds it goes on top of the history, is handed to
        `onScan` as `result`, the flag drops, and the alert's title and message are
        returned. The message follows the verdict only when the message draw agrees
        with the validity draw. */
    method CompleteScan(now: int, kindDraw: real, validDraw: real, messageDraw: real)
      returns (result: ScanResult, title: string, message: string)
      modifies this
      ensures result == MockResultAsWritten(now, kindDraw, validDraw, messageDraw)
      ensures (messageDraw > 0.3 <==> validDraw > 0.3) ==> result == MockResult(now, kindDraw, validDraw)
      ensures scanHistory == [result] + old(scanHistory)
      ensures |scanHistory| == |old(scanHistory)| + 1 && scanHistory[1..] == old(scanHistory)
      ensures !isScanning && ButtonEnabled()
      ensures title == AlertTitle(result) && message == result.message
      ensures ValidCount(scanHistory) == ValidCount(old(scanHistory)) + (if result.isValid then 1 else 0)
      ensures InvalidCount(scanHistory) == InvalidCount(old(scanHistory)) + (if result.isValid then 0 else 1)
    {
      result := MockResultAsWritten(now, kindDraw, validDraw, messageDraw);
      MockResultRules(now, kindDraw, validDraw, messageDraw);
      CountsOfPrepend(result, scanHistory);
      scanHistory := [result] + scanHistory;
      isScanning := false;
      title := if result.isValid then "Success" else "Invalid Code";
      message := result.message;
    }
  }
}
