/**
 * The stock-out screen (`src/screens/WOInstructionScreen.tsx`): scanned kanbans are
 * decoded and kept, newest first, in a pending list that is mirrored in the device
 * cache under `stockOutData`; the list is submitted as one batch or reset with a
 * password.
 */
module StockOut {
  import opened Wrappers
  import opened JsString
  import opened Records
  import opened Storage
  import opened Kanban

  /** A reading of the device clock in the components `Date` reports; `month` is
      `getMonth() + 1`. */
  datatype DateTime = DateTime(year: nat, month: nat, day: nat, hour: nat, minute: nat, second: nat) {
    predicate Valid() {
      1 <= month <= 12 && 1 <= day <= 31 && hour < 24 && minute < 60 && second < 60
    }
  }

  /** The password that unlocks the reset of the pending list. */
  const ResetPassword := "0000"

  /** `String(n).padStart(2, '0')`. */
  function Pad2(n: nat): string {
    PadStart(NatToString(n), 2, '0')
  }

  /** A number below 100 is rendered as exactly two digits that read back as it. */
  lemma Pad2Reads(n: nat)
    requires n < 100
    ensures |Pad2(n)| == 2 && AllDecimalDigits(Pad2(n)) && DecimalValue(Pad2(n)) == n
  {
    NatToStringLength(n, 2);
    PadStartLayout(NatToString(n), 2, '0');
    PaddedValue(n, 2);
  }

  /** Where the last two digits of a number sit: the tens digit times ten plus the
      units digit is the number modulo 100. */
  lemma LastTwoDigitsArithmetic(n: nat)
    ensures n % 100 == ((n / 10) % 10) * 10 + n % 10
  {
    var q, r := n / 10, n % 10;
    var a, b := q / 10, q % 10;
    assert n == 10 * q + r;
    assert q == 10 * a + b;
    assert n == 100 * a + (10 * b + r);
  }

  /** A number below 10000 padded to four places is four digits that read back as it. */
  lemma Pad4Reads(n: nat)
    requires n < 10000
    ensures var p := PadStart(NatToString(n), 4, '0');
      |p| == 4 && AllDecimalDigits(p) && DecimalValue(p) == n
  {
    NatToStringLength(n, 4);
    PadStartLayout(NatToString(n), 4, '0');
    PaddedValue(n, 4);
  }

  /** The last two characters of a number of at least two digits are two digits that
      read back as the number modulo 100. */
  lemma LastTwoDigits(n: nat)
    requires n >= 10
    ensures var y := SliceLast(NatToString(n), 2);
      |y| == 2 && AllDecimalDigits(y) && DecimalValue(y) == n % 100
  {
    var q := n / 10;
    var p := NatToString(q);
    var s := NatToString(n);
    assert s == p + [s[|s| - 1]];
    assert SliceLast(s, 2) == [p[|p| - 1], s[|s| - 1]];
    TwoDigitValue(q % 10, n % 10);
    LastTwoDigitsArithmetic(n);
  }

  /** `generateProcessId`: `ST` followed by the two-digit year, month, day, hour,
      minute and second. */
  function ProcessId(now: DateTime): (r: string)
    ensures |r| >= 2 && r[..2] == "ST"
  {
    "ST" + SliceLast(NatToString(now.year), 2) + Pad2(now.month) + Pad2(now.day)
      + Pad2(now.hour) + Pad2(now.minute) + Pad2(now.second)
  }

  /** Concatenation keeps strings of decimal digits. */
  lemma AllDigitsConcat(a: string, b: string)
    requires AllDecimalDigits(a) && AllDecimalDigits(b)
    ensures AllDecimalDigits(a + b)
  {
    forall i | 0 <= i < |a + b| ensures IsDecimalDigit((a + b)[i]) {
      if i >= |a| {
        assert (a + b)[i] == b[i - |a|];
      }
    }
  }

  /** Where the six two-character groups of a process id sit. */
  lemma ProcessIdGroups(id: string, y: string, mo: string, d: string, h: string, mi: string, s: string)
    requires |y| == 2 && |mo| == 2 && |d| == 2 && |h| == 2 && |mi| == 2 && |s| == 2
    requires id == "ST" + y + mo + d + h + mi + s
    ensures |id| == 14 && id[..2] == "ST" && id[2..] == y + mo + d + h + mi + s
    ensures id[2..4] == y && id[4..6] == mo && id[6..8] == d
    ensures id[8..10] == h && id[10..12] == mi && id[12..14] == s
  {
  }

  /** A process id has fourteen characters, and each two-digit group after `ST` reads
      back as the clock component it came from. */
  lemma ProcessIdLayout(now: DateTime)
    requires now.Valid() && now.year >= 10
    ensures var id := ProcessId(now);
      && |id| == 14 && id[..2] == "ST" && AllDecimalDigits(id[2..])
      && DecimalValue(id[2..4]) == now.year % 100
      && DecimalValue(id[4..6]) == now.month
      && DecimalValue(id[6..8]) == now.day
      && DecimalValue(id[8..10]) == now.hour
      && DecimalValue(id[10..12]) == now.minute
      && DecimalValue(id[12..14]) == now.second
  {
    var y, mo, d, h, mi, s :=
      SliceLast(NatToString(now.year), 2), Pad2(now.month), Pad2(now.day), Pad2(now.hour), Pad2(now.minute), Pad2(now.second);
    LastTwoDigits(now.year);
    Pad2Reads(now.month);
    Pad2Reads(now.day);
    Pad2Reads(now.hour);
    Pad2Reads(now.minute);
    Pad2Reads(now.second);
    ProcessIdGroups(ProcessId(now), y, mo, d, h, mi, s);
    AllDigitsConcat(y, mo);
    AllDigitsConcat(y + mo, d);
    AllDigitsConcat(y + mo + d, h);
    AllDigitsConcat(y + mo + d + h, mi);
    AllDigitsConcat(y + mo + d + h + mi, s);
  }

  /** `generateSlipNumber`: `F`, the last digit of the year, the two-digit day and
      month, and the random number padded to four digits. */
  function SlipNumber(now: DateTime, random: nat): (r: string)
    ensures |r| >= 1 && r[0] == 'F'
  {
    "F" + SliceLast(NatToString(now.year), 1) + Pad2(now.day) + Pad2(now.month)
      + PadStart(NatToString(random), 4, '0')
  }

  /** Where the groups of a slip number sit. */
  lemma SlipNumberGroups(slip: string, y: string, d: string, mo: string, r: string)
    requires |y| == 1 && |d| == 2 && |mo| == 2 && |r| == 4
    requires slip == "F" + y + d + mo + r
    ensures |slip| == 10 && slip[0] == 'F' && slip[1..] == y + d + mo + r
    ensures slip[1..2] == y && slip[2..4] == d && slip[4..6] == mo && slip[6..10] == r
  {
  }

  /** The last character of a number's rendering is one digit that reads back as the
      number modulo 10. */
  lemma LastDigit(n: nat)
    ensures var y := SliceLast(NatToString(n), 1);
      |y| == 1 && AllDecimalDigits(y) && DecimalValue(y) == n % 10
  {
    var s := NatToString(n);
    var y := SliceLast(s, 1);
    assert y == [s[|s| - 1]];
    OneDigitValue(n % 10);
  }

  /** Two digit characters read back as the two-digit number they spell. */
  lemma TwoDigitValue(a: nat, b: nat)
    requires a < 10 && b < 10
    ensures var y := [('0' as int + a) as char, ('0' as int + b) as char];
      |y| == 2 && AllDecimalDigits(y) && DecimalValue(y) == a * 10 + b
  {
    var da, db := ('0' as int + a) as char, ('0' as int + b) as char;
    OneDigitValue(a);
    assert DigitValue(db, 10) == Some(b);
    assert [da, db][..1] == [da];
  }

  /** The one-character rendering of a digit reads back as that digit. */
  lemma OneDigitValue(v: nat)
    requires v < 10
    ensures var y := [('0' as int + v) as char];
      AllDecimalDigits(y) && DecimalValue(y) == v
  {
    var d := ('0' as int + v) as char;
    assert DigitValue(d, 10) == Some(v);
    assert [d][..0] == [];
    assert DigitsValue([d], 10) == DigitsValue([], 10) * 10 + v;
  }

  /** With a random number below 10000 (`Math.floor(Math.random() * 10000)`), a slip
      number has ten characters, and its groups read back as the year's last digit,
      the day, the month and the random number. */
  lemma SlipNumberLayout(now: DateTime, random: nat)
    requires now.Valid() && random < 10000
    ensures var slip := SlipNumber(now, random);
      && |slip| == 10 && slip[0] == 'F' && AllDecimalDigits(slip[1..])
      && DecimalValue(slip[1..2]) == now.year % 10
      && DecimalValue(slip[2..4]) == now.day
      && DecimalValue(slip[4..6]) == now.month
      && DecimalValue(slip[6..10]) == random
  {
    var y := SliceLast(NatToString(now.year), 1);
    var d, mo := Pad2(now.day), Pad2(now.month);
    var r := PadStart(NatToString(random), 4, '0');
    LastDigit(now.year);
    Pad2Reads(now.day);
    Pad2Reads(now.month);
    Pad4Reads(random);
    SlipNumberGroups(SlipNumber(now, random), y, d, mo, r);
    AllDigitsConcat(y, d);
    AllDigitsConcat(y + d, mo);
    AllDigitsConcat(y + d + mo, r);
  }

  /** Some stored item already carries this QR text (`currentData.some(...)`). */
  predicate HasImage(items: seq<StockOutItem>, qr: string) {
    exists i :: 0 <= i < |items| && items[i].imgData == qr
  }

  /** No two stored items carry the same QR text. */
  predicate DistinctImages(items: seq<StockOutItem>) {
    forall i, j :: 0 <= i < j < |items| ==> items[i].imgData != items[j].imgData
  }

  /** The item `handleScanIntent` records for a fresh scan. */
  function NewItem(qr: string, user: User, now: DateTime, timeScan: string): (r: StockOutItem)
    ensures r.imgData == qr && r.npk == user.userId && r.timeScan == timeScan
    ensures |r.partNumber| <= 15
  {
    var kanban := OneWayKanban(qr);
    StockOutItem(qr, timeScan, user.userId, kanban.PartNumber(), kanban.Qty(), ProcessId(now))
  }

  datatype ScanResult = WrongQr | DuplicateKanban | Added(items: seq<StockOutItem>)

  /** What one scan does to the stored list: a code that is not 30 characters long is
      refused, one already stored is reported as a duplicate, and anything else is
      decoded and put in front of the old items. */
  function Scan(stored: seq<StockOutItem>, qr: string, user: User, now: DateTime, timeScan: string): (r: ScanResult)
    ensures r.WrongQr? <==> |qr| != QrLength
    ensures r.DuplicateKanban? <==> |qr| == QrLength && HasImage(stored, qr)
    ensures r.Added? ==> |r.items| == |stored| + 1 && r.items[1..] == stored
    ensures r.Added? ==> r.items[0] == NewItem(qr, user, now, timeScan) && !HasImage(stored, qr)
    ensures r.Added? && DistinctImages(stored) ==> DistinctImages(r.items)
  {
    if |qr| != QrLength then WrongQr
    else if HasImage(stored, qr) then DuplicateKanban
    else
      var items := [NewItem(qr, user, now, timeScan)] + stored;
      assert items[1..] == stored;
      Added(items)
  }

  /** Scanning a code that was just added is reported as a duplicate, whatever the
      time and user: a second scan of the same kanban cannot add it again. */
  lemma ScanTwiceIsDuplicate(stored: seq<StockOutItem>, qr: string, user: User, now: DateTime,
                             timeScan: string, user': User, now': DateTime, timeScan': string)
    requires Scan(stored, qr, user, now, timeScan).Added?
    ensures Scan(Scan(stored, qr, user, now, timeScan).items, qr, user', now', timeScan') == DuplicateKanban
  {
    var items := Scan(stored, qr, user, now, timeScan).items;
    assert items[0].imgData == qr;
  }

  /** One scan as the screen receives it: the QR text with the clock reading taken
      when it arrived. */
  datatype ScanEvent = ScanEvent(qr: string, now: DateTime, timeScan: string)

  /** The stored list after a run of scans by one user, in order. */
  function ScanAll(stored: seq<StockOutItem>, user: User, events: seq<ScanEvent>): seq<StockOutItem>
    decreases |events|
  {
    if events == [] then stored
    else
      var e := events[0];
      var r := Scan(stored, e.qr, user, e.now, e.timeScan);
      ScanAll(if r.Added? then r.items else stored, user, events[1..])
  }

  /** `later` is `earlier` with items carrying 30-character codes put in front. */
  predicate GrowsFrom(later: seq<StockOutItem>, earlier: seq<StockOutItem>) {
    && |later| >= |earlier|
    && later[|later| - |earlier|..] == earlier
    && forall i :: 0 <= i < |later| - |earlier| ==> |later[i].imgData| == QrLength
  }

  lemma GrowsFromTransitive(a: seq<StockOutItem>, b: seq<StockOutItem>, c: seq<StockOutItem>)
    requires GrowsFrom(a, b) && GrowsFrom(b, c)
    ensures GrowsFrom(a, c)
  {
    var k := |a| - |b|;
    assert a[k..] == b;
    assert a[|a| - |c|..] == b[|b| - |c|..];
    forall i | 0 <= i < |a| - |c| ensures |a[i].imgData| == QrLength {
      if i >= k {
        assert a[i] == b[i - k];
      }
    }
  }

  /** One scan keeps the codes distinct and only ever puts a 30-character code in front. */
  lemma ScanGrows(stored: seq<StockOutItem>, user: User, e: ScanEvent)
    requires DistinctImages(stored)
    ensures var r := Scan(stored, e.qr, user, e.now, e.timeScan);
      var next := if r.Added? then r.items else stored;
      DistinctImages(next) && GrowsFrom(next, stored)
  {
    var r := Scan(stored, e.qr, user, e.now, e.timeScan);
    if r.Added? {
      assert r.items[0].imgData == e.qr;
      assert r.items[|r.items| - |stored|..] == r.items[1..];
    } else {
      assert stored[0..] == stored;
    }
  }

  /** However many scans arrive, the stored list keeps distinct QR texts, keeps every
      item it had at its end, and every item added carries a 30-character code. */
  lemma {:induction false} ScanAllKeepsDistinct(stored: seq<StockOutItem>, user: User, events: seq<ScanEvent>)
    requires DistinctImages(stored)
    ensures DistinctImages(ScanAll(stored, user, events))
    ensures GrowsFrom(ScanAll(stored, user, events), stored)
    decreases |events|
  {
    if events == [] {
      assert stored[0..] == stored;
    } else {
      var e := events[0];
      var r := Scan(stored, e.qr, user, e.now, e.timeScan);
      var next := if r.Added? then r.items else stored;
      ScanGrows(stored, user, e);
      ScanAllKeepsDistinct(next, user, events[1..]);
      GrowsFromTransitive(ScanAll(next, user, events[1..]), next, stored);
    }
  }

  /** A batch handed to the stock-out endpoint. */
  datatype Submission = Submission(items: seq<StockOutItem>, slip: string)

  class StockOutScreen {
    const user: User
    const store: Store
    /** The list on screen. */
    var data: seq<StockOutItem>
    /** The reset-password dialog. */
    var modalVisible: bool
    /** The "already scanned" dialog. */
    var modalDuplicateKanban: bool
    /** The text typed into the reset-password dialog. */
    var password: string
    var loading: bool
    /** The "wrong QR" banner. */
    var wrongQr: bool

    constructor (user: User, store: Store)
      ensures this.user == user && this.store == store
      ensures data == [] && password == ""
      ensures !modalVisible && !modalDuplicateKanban && !loading && !wrongQr
    {
      this.user := user;
      this.store := store;
      data := [];
      modalVisible := false;
      modalDuplicateKanban := false;
      password := "";
      loading := false;
      wrongQr := false;
    }

    /** `loadStoredData`, run when the screen mounts: show what the cache holds. */
    method LoadStoredData()
      modifies this`data
      ensures data == store.stockOutData
    {
      data := store.stockOutData;
    }

    /** `handleScanIntent`: the cache, not the list on screen, is what a scan is checked
        against and added to; the screen then shows the new cache contents. */
    method HandleScanIntent(qrData: string, now: DateTime, timeScan: string) returns (result: ScanResult)
      modifies this`data, this`wrongQr, this`modalDuplicateKanban, store`stockOutData
      ensures result == Scan(old(store.stockOutData), qrData, user, now, timeScan)
      ensures result.Added? ==> store.stockOutData == result.items && data == result.items
      ensures !result.Added? ==> store.stockOutData == old(store.stockOutData) && data == old(data)
      ensures wrongQr == (old(wrongQr) || result.WrongQr?)
      ensures modalDuplicateKanban == (old(modalDuplicateKanban) || result.DuplicateKanban?)
      ensures store.userDataLogin == old(store.userDataLogin)
      ensures modalVisible == old(modalVisible) && password == old(password) && loading == old(loading)
    {
      if |qrData| == QrLength {
        var kanban := OneWayKanban(qrData);
        var currentData := store.stockOutData;
        if HasImage(currentData, qrData) {
          modalDuplicateKanban := true;
          return DuplicateKanban;
        }
        var qty := kanban.QtyPerKanban();
        var newData := StockOutItem(qrData, timeScan, user.userId, kanban.PartNumber(), qty, ProcessId(now));
        var updatedData := [newData] + currentData;
        store.stockOutData := updatedData;
        data := updatedData;
        result := Added(updatedData);
      } else {
        wrongQr := true;
        result := WrongQr;
      }
    }

    /** `handleSubmitData`: an empty list is not sent; otherwise the list goes out with
        a fresh slip number, and only a successful reply clears it. */
    method HandleSubmitData(now: DateTime, random: nat, succeeded: bool) returns (sent: Option<Submission>)
      modifies this`data, this`loading, store`stockOutData
      ensures old(data) == [] ==> sent == None
      ensures old(data) != [] ==> sent == Some(Submission(old(data), SlipNumber(now, random))) && !loading
      ensures old(data) == [] ==> loading == old(loading)
      ensures old(data) != [] && succeeded ==> data == [] && store.stockOutData == []
      ensures old(data) == [] || !succeeded ==> data == old(data) && store.stockOutData == old(store.stockOutData)
      ensures store.userDataLogin == old(store.userDataLogin)
      ensures modalVisible == old(modalVisible) && modalDuplicateKanban == old(modalDuplicateKanban)
      ensures password == old(password) && wrongQr == old(wrongQr)
    {
      if |data| > 0 {
        loading := true;
        var slip := SlipNumber(now, random);
        sent := Some(Submission(data, slip));
        if succeeded {
          store.stockOutData := [];
          data := [];
        }
        loading := false;
      } else {
        sent := None;
      }
    }

    /** The "Reset Data" button opens the password dialog. */
    method OpenResetModal()
      modifies this`modalVisible
      ensures modalVisible
    {
      modalVisible := true;
    }

    /** Typing into the password field. */
    method SetPassword(text: string)
      modifies this`password
      ensures password == text
    {
      password := text;
    }

    /** The dialog's cancel button closes it and forgets the typed password. */
    method CancelReset()
      modifies this`modalVisible, this`password
      ensures !modalVisible && password == ""
    {
      modalVisible := false;
      password := "";
    }

    /** Closing the duplicate dialog. */
    method DismissDuplicate()
      modifies this`modalDuplicateKanban
      ensures !modalDuplicateKanban
    {
      modalDuplicateKanban := false;
    }

    /** `resetData`: the right password empties the list and the cache; either way the
        dialog closes and the typed password is cleared. */
    method ResetData() returns (cleared: bool)
      modifies this`data, this`modalVisible, this`password, store`stockOutData
      ensures cleared == (old(password) == ResetPassword)
      ensures cleared ==> data == [] && store.stockOutData == []
      ensures !cleared ==> data == old(data) && store.stockOutData == old(store.stockOutData)
      ensures !modalVisible && password == ""
      ensures store.userDataLogin == old(store.userDataLogin)
      ensures modalDuplicateKanban == old(modalDuplicateKanban) && loading == old(loading) && wrongQr == old(wrongQr)
    {
      if password == ResetPassword {
        store.stockOutData := [];
        data := [];
        modalVisible := false;
        password := "";
        cleared := true;
      } else {
        modalVisible := false;
        password := "";
        cleared := false;
      }
    }
  }
}
