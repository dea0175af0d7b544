/**
 * modules/groupListener.js: the group listener. For every message from a
 * selected group it builds a prompt, asks the language model for a JSON
 * object of listing fields, parses it (with one repair of unescaped quotes),
 * validates the location fields against the Streets sheet and emits a
 * 35-cell row for the Assets sheet. The model, JSON.parse, the sheet reads,
 * the group metadata lookup and the clock are parameters (Services); the
 * listener's state is a class.
 */
module Extraction {
  import opened Wrappers
  import opened Text
  import opened Numbers
  import opened Sheets
  import opened Messages
  import opened DataUtils
  import Query

  // ---------------------------------------------------------------------
  // Phone numbers, timestamps and the prompt
  // ---------------------------------------------------------------------

  /** transformAdvertisedPhone: a leading 0 becomes the country code 972. */
  function TransformAdvertisedPhone(phone: string): string {
    if phone != "" && phone[0] == '0' then "972" + phone[1..] else phone
  }

  /**
   * A transformed local number starts with the country code and keeps its other
   * digits; any other number is left as it is.
   */
  lemma TransformAdvertisedPhoneSpec(phone: string)
    ensures StartsWith(phone, "0") ==>
      StartsWith(TransformAdvertisedPhone(phone), "972")
      && |TransformAdvertisedPhone(phone)| == |phone| + 2
      && TransformAdvertisedPhone(phone)[3..] == phone[1..]
    ensures !StartsWith(phone, "0") ==> TransformAdvertisedPhone(phone) == phone
    ensures TransformAdvertisedPhone(TransformAdvertisedPhone(phone)) == TransformAdvertisedPhone(phone)
  {
    var r := TransformAdvertisedPhone(phone);
    if StartsWith(phone, "0") {
      assert r[..3] == "972";
    }
  }

  /** The local date and time of a message as Date's getters return them (the month is 0-based). */
  datatype DateTime = DateTime(day: nat, monthIndex: nat, year: nat, hours: nat, minutes: nat)

  /** `("0" + n).slice(-2)`: the last two characters of the number with a 0 in front. */
  function Pad2(n: nat): string {
    var s := "0" + NatToString(n);
    s[|s| - 2..]
  }

  /** The last digit toString writes is the number's last decimal digit. */
  lemma NatToStringLast(n: nat)
    ensures NatToString(n)[|NatToString(n)| - 1] == DigitChar(n % 10)
  {
  }

  lemma TwoDigitsValue(a: char, b: char)
    requires IsDigit(a) && IsDigit(b)
    ensures DigitsValue([a, b]) == DigitValue(a) * 10 + DigitValue(b)
  {
    assert [a, b][..1] == [a];
    assert [a][..0] == [];
    assert DigitsValue([a]) == DigitValue(a);
  }

  lemma Pad2Small(n: nat)
    requires n < 10
    ensures Pad2(n) == ['0', DigitChar(n)]
  {
  }

  lemma Pad2Big(n: nat)
    requires n >= 10
    ensures Pad2(n) == [DigitChar((n / 10) % 10), DigitChar(n % 10)]
  {
    var t := NatToString(n);
    var u := NatToString(n / 10);
    assert t == u + [DigitChar(n % 10)];
    NatToStringLast(n / 10);
    var s := "0" + t;
    assert s[|s| - 2..] == [u[|u| - 1], DigitChar(n % 10)];
  }

  lemma LastTwoDigits(n: nat)
    ensures ((n / 10) % 10) * 10 + n % 10 == n % 100
  {
    var q := n / 10;
    var r := 10 * (q % 10) + n % 10;
    assert n == 10 * q + n % 10;
    assert q == 10 * (q / 10) + q % 10;
    assert n == 100 * (q / 10) + r && 0 <= r < 100;
    RemainderOf100(n, q / 10, r);
  }

  lemma RemainderOf100(n: int, k: int, r: int)
    requires n == 100 * k + r && 0 <= r < 100
    ensures n % 100 == r
  {
    var d := k - n / 100;
    assert 100 * d == n % 100 - r;
  }

  lemma Pad2Length(n: nat)
    ensures |Pad2(n)| == 2
  {
  }

  /** Pad2 writes two digits spelling the number modulo 100: the number itself for every day, month, hour and minute. */
  lemma Pad2Value(n: nat)
    ensures |Pad2(n)| == 2 && AllDigits(Pad2(n))
    ensures DigitsValue(Pad2(n)) == n % 100
  {
    if n < 10 {
      Pad2Small(n);
      TwoDigitsValue('0', DigitChar(n));
    } else {
      Pad2Big(n);
      TwoDigitsValue(DigitChar((n / 10) % 10), DigitChar(n % 10));
      LastTwoDigits(n);
    }
  }

  /** The `dd/mm/yyyy HH:MM` timestamp of the row. */
  function Timestamp(t: DateTime): string {
    Pad2(t.day) + "/" + Pad2(t.monthIndex + 1) + "/" + NatToString(t.year) + " " + Pad2(t.hours) + ":" + Pad2(t.minutes)
  }

  /**
   * The timestamp's layout: the two-digit day and (1-based) month, the year as
   * toString writes it, the two-digit hours and minutes, with the separators at
   * fixed offsets from the year (Pad2Value says what each padded field reads as).
   */
  lemma TimestampLayout(t: DateTime)
    ensures var y := NatToString(t.year); var s := Timestamp(t);
      && |s| == 12 + |y|
      && s[..2] == Pad2(t.day) && s[2] == '/'
      && s[3..5] == Pad2(t.monthIndex + 1) && s[5] == '/'
      && s[6..6 + |y|] == y && s[6 + |y|] == ' '
      && s[7 + |y|..9 + |y|] == Pad2(t.hours) && s[9 + |y|] == ':'
      && s[10 + |y|..] == Pad2(t.minutes)
  {
    Pad2Length(t.day);
    Pad2Length(t.monthIndex + 1);
    Pad2Length(t.hours);
    Pad2Length(t.minutes);
    StampLayout(Pad2(t.day), Pad2(t.monthIndex + 1), NatToString(t.year), Pad2(t.hours), Pad2(t.minutes));
  }

  /** Where each part of `d/m/y h:i` lands when the parts other than the year have two characters. */
  lemma StampLayout(d: string, m: string, y: string, h: string, i: string)
    requires |d| == 2 && |m| == 2 && |h| == 2 && |i| == 2
    ensures var s := d + "/" + m + "/" + y + " " + h + ":" + i;
      && |s| == 12 + |y|
      && s[..2] == d && s[2] == '/' && s[3..5] == m && s[5] == '/'
      && s[6..6 + |y|] == y && s[6 + |y|] == ' '
      && s[7 + |y|..9 + |y|] == h && s[9 + |y|] == ':' && s[10 + |y|..] == i
  {
    var a1 := d + "/";
    var a2 := a1 + m + "/";
    var a3 := a2 + y + " ";
    var a4 := a3 + h + ":";
    var s := a4 + i;
    assert s[..2] == d by { assert s[..2] == a4[..2] == a1[..2]; }
    assert s[3..5] == m by { assert s[3..5] == a4[3..5] == a2[3..5]; }
    assert s[6..6 + |y|] == y by { assert s[6..6 + |y|] == a4[6..6 + |y|] == a3[6..6 + |y|]; }
    assert s[7 + |y|..9 + |y|] == h by { assert s[7 + |y|..9 + |y|] == a4[7 + |y|..9 + |y|]; }
  }

  const UserSuffix: string := "@s.whatsapp.net"
  const GroupSuffix: string := "@g.us"

  /** `(participant || remoteJid || 'Unknown')` without one trailing @s.whatsapp.net, then without one trailing @g.us. */
  function SenderPhone(key: MessageKey): string {
    var raw := if key.participant != "" then key.participant else if key.remoteJid != "" then key.remoteJid else "Unknown";
    DropSuffix(DropSuffix(raw, UserSuffix), GroupSuffix)
  }

  /** A participant id `n@s.whatsapp.net` gives the number n; a key with no ids gives 'Unknown'. */
  lemma SenderPhoneSpec(key: MessageKey, n: string)
    ensures key.participant == n + UserSuffix && !EndsWith(n, GroupSuffix) ==> SenderPhone(key) == n
    ensures key.participant == "" && key.remoteJid == "" ==> SenderPhone(key) == "Unknown"
  {
    if key.participant == n + UserSuffix {
      var p := n + UserSuffix;
      assert p[|p| - |UserSuffix|..] == UserSuffix;
    }
    if key.participant == "" && key.remoteJid == "" {
      assert !EndsWith("Unknown", UserSuffix);
      assert "Unknown"[|"Unknown"| - |GroupSuffix|..] != GroupSuffix;
    }
  }

  /** A group id `g@g.us` with no participant gives g. */
  lemma SenderPhoneOfGroup(key: MessageKey, g: string)
    requires key.participant == "" && key.remoteJid == g + GroupSuffix
    ensures SenderPhone(key) == g
  {
    var j := g + GroupSuffix;
    assert j[|j| - 1] == 's';
    assert !EndsWith(j, UserSuffix) by {
      if |UserSuffix| <= |j| {
        assert j[|j| - |UserSuffix|..][|UserSuffix| - 1] == j[|j| - 1];
      }
    }
    assert j[|j| - |GroupSuffix|..] == GroupSuffix;
  }

  /** The user message of the extraction prompt: the message's metadata, a blank line, then its text. */
  function MessageForModel(groupId: string, groupName: string, sender: string, phone: string, timestamp: string, text: string): string {
    "Group id: " + groupId + "\nGroup name: " + groupName + "\nSender name: " + sender
    + "\nPhone number: " + phone + "\nTimestamp: " + timestamp + "\n\nMessage:\n" + text
  }

  const FallbackPrompt: string := "Please analyze the WhatsApp message and extract relevant real estate information in JSON format."
  const ListsUnavailable: string := "Error loading lists - using free text input"
  const ListsPlaceholder: string := "{DYNAMIC_LISTS_PLACEHOLDER}"

  /** The system prompt: the prompt file's text, or a built-in request when it cannot be read. */
  function SystemPrompt(file: Result<string>): string {
    match file
    case Success(text) => text
    case Failure(_) => FallbackPrompt
  }

  /** loadPredefinedLists: the formatted lists, or a notice when a read fails. */
  function PredefinedLists(lists: Result<string>): string {
    match lists
    case Success(text) => text
    case Failure(_) => ListsUnavailable
  }

  // ---------------------------------------------------------------------
  // Cleaning the model's reply
  // ---------------------------------------------------------------------

  const JsonFence: string := "```json"

  /** `.replace(/```json/gi, '').replace(/```/g, '').trim()` */
  function StripFences(s: string): string {
    Trim(ReplaceAll(ReplaceAllIgnoreCase(s, JsonFence, ""), Ticks, ""))
  }

  /** No fence survives the stripping. */
  lemma StripFencesNoTicks(s: string)
    ensures !Contains(StripFences(s), Ticks)
  {
    var v := ReplaceAllIgnoreCase(s, JsonFence, "");
    var u := ReplaceAll(v, Ticks, "");
    RemoveTicksComplete(v);
    var a, b := TrimIsInfix(u);
    if Contains(StripFences(s), Ticks) {
      ContainsInfix(u, a, b, Ticks);
    }
  }

  lemma LowerCharTick(c: char)
    ensures LowerChar(c) == '`' <==> c == '`'
  {
  }

  lemma {:induction false} IgnoreCaseNoTick(b: string)
    requires '`' !in b
    ensures ReplaceAllIgnoreCase(b, JsonFence, "") == b
    decreases |b|
  {
    if |b| >= |JsonFence| {
      LowerCharTick(b[0]);
      assert ToLower(b[..|JsonFence|])[0] != ToLower(JsonFence)[0];
      IgnoreCaseNoTick(b[1..]);
      assert b == [b[0]] + b[1..];
    }
  }

  lemma {:induction false} TicksNoTick(b: string)
    requires '`' !in b
    ensures ReplaceAll(b, Ticks, "") == b
    ensures ReplaceAll(b + Ticks, Ticks, "") == b
    decreases |b|
  {
    if b == [] {
      assert b + Ticks == Ticks;
      assert Ticks[..|Ticks|] == Ticks;
    } else {
      TicksNoTick(b[1..]);
      assert (b + Ticks)[1..] == b[1..] + Ticks;
      assert (b + Ticks)[0] == b[0];
      if |b| >= |Ticks| {
        assert b[..|Ticks|][0] == b[0];
      }
      assert (b + Ticks)[..|Ticks|][0] == b[0];
      assert b == [b[0]] + b[1..];
    }
  }

  /** A reply fenced as a json code block is reduced to its (trimmed) body. */
  lemma StripFencesBlock(body: string)
    requires '`' !in body
    ensures StripFences(JsonFence + body + Ticks) == Trim(body)
  {
    var s := JsonFence + body + Ticks;
    assert s[..|JsonFence|] == JsonFence;
    assert s[|JsonFence|..] == body + Ticks;
    IgnoreCaseNoTickFenced(body);
    TicksNoTick(body);
  }

  lemma IgnoreCaseNoTickFenced(body: string)
    requires '`' !in body
    ensures ReplaceAllIgnoreCase(JsonFence + body + Ticks, JsonFence, "") == body + Ticks
  {
    var s := JsonFence + body + Ticks;
    assert s[..|JsonFence|] == JsonFence;
    assert s[|JsonFence|..] == body + Ticks;
    IgnoreCaseTail(body);
  }

  lemma {:induction false} IgnoreCaseTail(b: string)
    requires '`' !in b
    ensures ReplaceAllIgnoreCase(b + Ticks, JsonFence, "") == b + Ticks
    decreases |b|
  {
    var s := b + Ticks;
    if |s| >= |JsonFence| {
      assert b != [];
      LowerCharTick(b[0]);
      assert s[0] == b[0];
      assert ToLower(s[..|JsonFence|])[0] != ToLower(JsonFence)[0];
      IgnoreCaseTail(b[1..]);
      assert s[1..] == b[1..] + Ticks;
      assert s == [s[0]] + s[1..];
    }
  }

  const Shekel: string := "ש\"ח"
  const EscapedShekel: string := "ש\\\"ח"

  /** The one repair before the second parse: `.replace(/ש"ח/g, 'ש\\"ח')`. */
  function Repair(s: string): string {
    ReplaceAll(s, Shekel, EscapedShekel)
  }

  /** After the repair no unescaped ש"ח is left. */
  lemma {:induction false} RepairComplete(s: string)
    ensures !Contains(Repair(s), Shekel)
    decreases |s|
  {
    if |s| < 3 {
      ContainsIff(Repair(s), Shekel);
      assert |Repair(s)| < 3;
    } else if s[..3] == Shekel {
      RepairComplete(s[3..]);
      RepairAfterShekel(s);
    } else {
      RepairComplete(s[1..]);
      RepairAfterOther(s);
    }
  }

  /** A repaired ש"ח followed by a clean repaired rest leaves none. */
  lemma RepairAfterShekel(s: string)
    requires |s| >= 3 && s[..3] == Shekel && !Contains(Repair(s[3..]), Shekel)
    ensures !Contains(Repair(s), Shekel)
  {
    var r := Repair(s);
    var r' := Repair(s[3..]);
    ContainsIff(r, Shekel);
    ContainsIff(r', Shekel);
    assert r == EscapedShekel + r';
    forall i | 0 <= i ensures !OccursAt(r, Shekel, i) {
      if i < 4 {
        assert i + 3 <= |r| ==> r[i..i + 3][0] == r[i] && r[i..i + 3][1] == r[i + 1];
      } else if OccursAt(r, Shekel, i) {
        OccursInTail(EscapedShekel, r', Shekel, i);
      }
    }
  }

  /** A character kept by the repair, followed by a clean repaired rest, leaves none. */
  lemma RepairAfterOther(s: string)
    requires |s| >= 3 && s[..3] != Shekel && !Contains(Repair(s[1..]), Shekel)
    ensures !Contains(Repair(s), Shekel)
  {
    var t := s[1..];
    var r := Repair(s);
    var r' := Repair(t);
    ContainsIff(r, Shekel);
    ContainsIff(r', Shekel);
    assert r == [s[0]] + r';
    forall i | 0 <= i ensures !OccursAt(r, Shekel, i) {
      if i == 0 {
        RepairOtherStart(s, r);
      } else if OccursAt(r, Shekel, i) {
        OccursBehindChar(s[0], r', Shekel, i);
      }
    }
  }

  /** Behind a kept first character, no ש"ח starts the repaired text. */
  lemma RepairOtherStart(s: string, r: string)
    requires |s| >= 3 && s[..3] != Shekel && r == [s[0]] + Repair(s[1..])
    ensures !OccursAt(r, Shekel, 0)
  {
    var t := s[1..];
    if |r| >= 3 && r[0] == Shekel[0] && r[1] == Shekel[1] {
      RepairHead(t);
      assert t[0] == Shekel[1];
      RepairSecond(t);
      assert s[..3] == [s[0], t[0], t[1]];
    }
  }

  /** The repaired text begins with the same character as the original. */
  lemma RepairHead(t: string)
    requires |t| > 0
    ensures |Repair(t)| > 0 && Repair(t)[0] == t[0]
  {
    ReplaceAllHead(t, Shekel, EscapedShekel);
  }

  /** Behind a character other than ש, the repair keeps the next character too. */
  lemma RepairSecond(t: string)
    requires |t| >= 1 && t[0] != Shekel[0]
    ensures |t| >= 2 && |Repair(t)| >= 2 ==> Repair(t)[1] == t[1]
  {
    if |t| >= 3 {
      assert t[..3][0] == t[0];
      RepairHead(t[1..]);
    }
  }

  /** A text with no ש"ח in it is left as it is. */
  lemma {:induction false} RepairNoop(s: string)
    requires !Contains(s, Shekel)
    ensures Repair(s) == s
    decreases |s|
  {
    if |s| >= 3 {
      ContainsIff(s, Shekel);
      assert !OccursAt(s, Shekel, 0);
      assert s[..3] != Shekel;
      NotContainsTail(s, Shekel);
      RepairNoop(s[1..]);
      assert s == [s[0]] + s[1..];
    }
  }

  // ---------------------------------------------------------------------
  // The parsed fields and the location notes
  // ---------------------------------------------------------------------

  /**
   * The object JSON.parse returns, as the text of each of its fields (a number 3
   * is "3"). A falsy value (missing, null, "", 0, false) reads as "", which every
   * use treats as absent.
   */
  type Fields = map<string, string>

  /** `parsedOutput[key] || fallback` */
  function FieldOr(f: Fields, key: string, fallback: string): string {
    if key in f && f[key] != "" then f[key] else fallback
  }

  const NeighborhoodKey: string := "שכונה"
  const StreetKey: string := "רחוב"
  const CityKey: string := "עיר"
  const CurrencyKey: string := "מטבע"
  const StatusKey: string := "סטטוס"
  const InternalNotesKey: string := "הערות פנימיות"

  /** The location fields in the order they are validated, with the kind passed to validateLocation. */
  const LocationKinds: seq<(string, string)> := [(NeighborhoodKey, "neighborhood"), (StreetKey, "street"), (CityKey, "city")]

  /** What validating one location field adds to the notes: its internal note, when the field is present and the note is not empty. */
  function NoteFor(f: Fields, streets: SheetRead, kind: (string, string)): (r: seq<string>)
    ensures |r| <= 1
    ensures forall i :: 0 <= i < |r| ==> r[i] != ""
  {
    var value := FieldOr(f, kind.0, "");
    if value == "" then []
    else
      var note := ValidateLocation(value, kind.1, streets).internalNote;
      if note != "" then [note] else []
  }

  /** The notes of the location fields `kinds`, in order. */
  function LocationNotes(f: Fields, streets: SheetRead, kinds: seq<(string, string)>): (r: seq<string>)
    ensures |r| <= |kinds|
    ensures forall i :: 0 <= i < |r| ==> r[i] != ""
  {
    if kinds == [] then []
    else LocationNotes(f, streets, kinds[..|kinds| - 1]) + NoteFor(f, streets, kinds[|kinds| - 1])
  }

  /** Only present fields are validated: with every location field absent, there is no note. */
  lemma {:induction false} NoLocationsNoNotes(f: Fields, streets: SheetRead, kinds: seq<(string, string)>)
    requires forall i :: 0 <= i < |kinds| ==> FieldOr(f, kinds[i].0, "") == ""
    ensures LocationNotes(f, streets, kinds) == []
  {
    if kinds != [] {
      NoLocationsNoNotes(f, streets, kinds[..|kinds| - 1]);
    }
  }

  /** How many of the location fields `kinds` are present. */
  function PresentCount(f: Fields, kinds: seq<(string, string)>): nat {
    if kinds == [] then 0
    else PresentCount(f, kinds[..|kinds| - 1]) + (if FieldOr(f, kinds[|kinds| - 1].0, "") != "" then 1 else 0)
  }

  /** When the Streets sheet cannot be read, every present location field adds one error note. */
  lemma {:induction false} UnreadableStreetsNotes(f: Fields, streets: SheetRead, kinds: seq<(string, string)>)
    requires streets.Failure?
    ensures |LocationNotes(f, streets, kinds)| == PresentCount(f, kinds)
    ensures forall i :: 0 <= i < |LocationNotes(f, streets, kinds)| ==> StartsWith(LocationNotes(f, streets, kinds)[i], "שגיאה באימות ")
  {
    if kinds != [] {
      var init := kinds[..|kinds| - 1];
      var last := kinds[|kinds| - 1];
      UnreadableStreetsNotes(f, streets, init);
      var value := FieldOr(f, last.0, "");
      if value != "" {
        ValidateLocationSpec(value, last.1, streets);
      }
    }
  }

  /** When every present location field is known to the sheet, there is no note. */
  lemma {:induction false} KnownLocationsNoNotes(f: Fields, rows: seq<Row>, kinds: seq<(string, string)>)
    requires forall i :: 0 <= i < |kinds| ==> LocationColumn(kinds[i].1).Some?
    requires forall i :: 0 <= i < |kinds| && FieldOr(f, kinds[i].0, "") != "" ==>
      IsKnownLocation(rows, LocationColumn(kinds[i].1).value.0, CleanLocation(FieldOr(f, kinds[i].0, "")))
    ensures LocationNotes(f, Success(rows), kinds) == []
  {
    if kinds != [] {
      KnownLocationsNoNotes(f, rows, kinds[..|kinds| - 1]);
      var last := kinds[|kinds| - 1];
      var value := FieldOr(f, last.0, "");
      if value != "" {
        ValidateLocationSpec(value, last.1, Success(rows));
      }
    }
  }

  /** The notes, when there are any, appended on new lines to the internal notes. */
  function MergeNotes(f: Fields, notes: seq<string>): Fields {
    if |notes| > 0 then f[InternalNotesKey := FieldOr(f, InternalNotesKey, "") + "\n" + Join(notes, "\n")] else f
  }

  /**
   * Merging touches the internal notes only, and only when there is a note:
   * every other field, the location fields among them, keeps the model's value.
   */
  lemma MergeNotesSpec(f: Fields, notes: seq<string>, key: string, fallback: string)
    ensures notes == [] ==> MergeNotes(f, notes) == f
    ensures key != InternalNotesKey ==> FieldOr(MergeNotes(f, notes), key, fallback) == FieldOr(f, key, fallback)
    ensures notes != [] ==>
      FieldOr(MergeNotes(f, notes), InternalNotesKey, "") == FieldOr(f, InternalNotesKey, "") + "\n" + Join(notes, "\n")
  {
  }

  // ---------------------------------------------------------------------
  // The emitted row
  // ---------------------------------------------------------------------

  /** The fields written to cells 3 to 30, in column order. */
  const DetailKeys: seq<string> := [
    NeighborhoodKey, StreetKey, CityKey, "מספר בית", "סוג הדירה", "מספר החדרים",
    "גודל בטאבו", "גודל בארנונה", "פינת אוכל מוגדרת", CurrencyKey,
    "מחיר מעודכן 1", "מחיר מעודכן 2", "מחיר מעודכן 3", "מחיר מעודכן 4",
    "קומה/מתוך כמה", "נגישות (מפורט)", "רמת נגישות", "מעלית",
    "מרפסת 1 (מפורט)", "מרפסת 2 (מפורט)", "מרפסת 3 (מפורט)", "מחסן (מפורט)",
    "מקלט (מפורט)", "גינה (מפורט)", "חניה (מפורט)", "מצב הדירה", "פינוי (מתי)",
    "הערות (פרטי הנכס)"]

  const FirstDetailCol: nat := 3
  const CurrencyCol: nat := 12
  const TimestampCol: nat := 31
  const GroupNameCol: nat := 32
  const StatusCol: nat := 33
  const InternalNotesCol: nat := 34
  const RowWidth: nat := 35

  /** The cell of column `FirstDetailCol + j`: the field, or ש"ח for a missing currency and "" otherwise. */
  function DetailCell(f: Fields, j: nat): string
    requires j < |DetailKeys|
  {
    FieldOr(f, DetailKeys[j], if j == CurrencyCol - FirstDetailCol then Shekel else "")
  }

  /** finalRow */
  function FinalRow(assetId: string, realtor: Option<Realtor>, phone: string, f: Fields, timestamp: string, groupName: string): Row {
    [assetId, if realtor.Some? then realtor.value.name else "", phone]
    + seq(|DetailKeys|, j requires 0 <= j < |DetailKeys| => DetailCell(f, j))
    + [timestamp, groupName, FieldOr(f, StatusKey, Query.ActiveStatus), FieldOr(f, InternalNotesKey, "")]
  }

  /**
   * The row's fixed layout: 35 cells; the asset id, the realtor's name ("" when
   * not found) and the phone first; the fields of DetailKeys in cells 3 to 30
   * with ש"ח for a missing currency; the timestamp and group name at 31 and 32;
   * the status (פעיל when missing) and the internal notes last.
   */
  lemma FinalRowLayout(assetId: string, realtor: Option<Realtor>, phone: string, f: Fields, timestamp: string, groupName: string)
    ensures var row := FinalRow(assetId, realtor, phone, f, timestamp, groupName);
      && |row| == RowWidth
      && row[0] == assetId && row[1] == (if realtor.Some? then realtor.value.name else "") && row[2] == phone
      && (forall j :: 0 <= j < |DetailKeys| ==> row[FirstDetailCol + j] == DetailCell(f, j))
      && row[CurrencyCol] == FieldOr(f, CurrencyKey, Shekel)
      && row[TimestampCol] == timestamp && row[GroupNameCol] == groupName
      && row[StatusCol] == FieldOr(f, StatusKey, Query.ActiveStatus)
      && row[InternalNotesCol] == FieldOr(f, InternalNotesKey, "")
  {
  }

  /**
   * The row's columns are the ones the query bot's filter reads: in an emitted
   * row it finds neighborhood, street, city, type, rooms, size, the four prices
   * and the status as the model extracted them (ש"ח and פעיל filled in).
   */
  lemma FinalRowColumns(assetId: string, realtor: Option<Realtor>, phone: string, f: Fields, timestamp: string, groupName: string)
    ensures var row := FinalRow(assetId, realtor, phone, f, timestamp, groupName);
      && Cell(row, Query.NeighborhoodCol) == FieldOr(f, NeighborhoodKey, "")
      && Cell(row, Query.StreetCol) == FieldOr(f, StreetKey, "")
      && Cell(row, Query.CityCol) == FieldOr(f, CityKey, "")
      && Cell(row, Query.TypeCol) == FieldOr(f, "סוג הדירה", "")
      && Cell(row, Query.RoomsCol) == FieldOr(f, "מספר החדרים", "")
      && Cell(row, Query.SizeCol) == FieldOr(f, "גודל בטאבו", "")
      && Cell(row, Query.FirstPriceCol) == FieldOr(f, "מחיר מעודכן 1", "")
      && Cell(row, Query.FirstPriceCol + 1) == FieldOr(f, "מחיר מעודכן 2", "")
      && Cell(row, Query.FirstPriceCol + 2) == FieldOr(f, "מחיר מעודכן 3", "")
      && Cell(row, Query.FirstPriceCol + 3) == FieldOr(f, "מחיר מעודכן 4", "")
      && Cell(row, Query.StatusCol) == FieldOr(f, StatusKey, Query.ActiveStatus)
  {
    var row := FinalRow(assetId, realtor, phone, f, timestamp, groupName);
    FinalRowLayout(assetId, realtor, phone, f, timestamp, groupName);
    assert row[3] == DetailCell(f, 0);
    assert row[4] == DetailCell(f, 1);
    assert row[5] == DetailCell(f, 2);
    assert row[7] == DetailCell(f, 4);
    assert row[8] == DetailCell(f, 5);
    assert row[9] == DetailCell(f, 6);
    assert row[13] == DetailCell(f, 10);
    assert row[14] == DetailCell(f, 11);
    assert row[15] == DetailCell(f, 12);
    assert row[16] == DetailCell(f, 13);
  }

  lemma ActiveStatusLower()
    ensures ToLower(Query.ActiveStatus) == Query.ActiveStatus
    ensures Contains(Query.ActiveStatus, Query.ActiveStatus)
  {
    assert forall i :: 0 <= i < |Query.ActiveStatus| ==> ToLower(Query.ActiveStatus)[i] == Query.ActiveStatus[i];
    assert OccursAt(Query.ActiveStatus, Query.ActiveStatus, 0);
    ContainsIff(Query.ActiveStatus, Query.ActiveStatus);
  }

  /** A row whose status the model left out is active: it passes the filter's status test without includeSold. */
  lemma DefaultStatusActive(assetId: string, realtor: Option<Realtor>, phone: string, f: Fields, timestamp: string, groupName: string)
    requires FieldOr(f, StatusKey, "") == ""
    ensures Query.StatusMatches(ToLower(Cell(FinalRow(assetId, realtor, phone, f, timestamp, groupName), Query.StatusCol)), false)
  {
    FinalRowColumns(assetId, realtor, phone, f, timestamp, groupName);
    ActiveStatusLower();
  }

  // ---------------------------------------------------------------------
  // processMessage
  // ---------------------------------------------------------------------

  /**
   * What processMessage calls out to: the system prompt (SystemPrompt of the
   * prompt file), the predefined lists (formatted, or the read error), whether
   * the language-model client was created, the model (system prompt and user
   * message to reply text, or the error it throws), JSON.parse (None when it
   * throws or yields something whose fields cannot be read), the reads of the
   * Streets, Realtors and Assets sheets, the group metadata lookup, and the
   * local date and time of a message's timestamp (or of the current time when
   * it has none).
   */
  datatype Services = Services(
    systemPrompt: string,
    lists: Result<string>,
    modelReady: bool,
    model: (string, string) -> Result<string>,
    parse: string -> Option<Fields>,
    streets: SheetRead,
    realtors: SheetRead,
    assets: SheetRead,
    groupSubject: string -> Result<string>,
    clock: Message -> DateTime)

  /** The group's subject, or "" when the metadata lookup fails. */
  function GroupName(s: Services, groupId: string): string {
    match s.groupSubject(groupId)
    case Success(subject) => subject
    case Failure(_) => ""
  }

  /**
   * The body of the parse attempt: the location notes merged into the fields,
   * the realtor lookup (whose read error is thrown) and the next asset id.
   */
  function BuildRow(f: Fields, phone: string, timestamp: string, groupName: string, s: Services): (r: Result<Row>)
    ensures s.realtors.Failure? ==> r.Failure?
    ensures s.realtors.Success? ==> r.Success?
  {
    var merged := MergeNotes(f, LocationNotes(f, s.streets, LocationKinds));
    var realtor :- GetRealtorInfo(phone, s.realtors);
    Success(FinalRow(NextAssetId(s.assets), realtor, phone, merged, timestamp, groupName))
  }

  /** Parse the cleaned reply; if that or anything after it throws, repair the text once and try again. */
  function ParseWithRepair(json: string, phone: string, timestamp: string, groupName: string, s: Services): Option<Row> {
    var first := if s.parse(json).Some? then BuildRow(s.parse(json).value, phone, timestamp, groupName, s) else Failure("parse");
    if first.Success? then Some(first.value)
    else match s.parse(Repair(json))
      case None => None
      case Some(f) => BuildRow(f, phone, timestamp, groupName, s).ToOption()
  }

  /**
   * The first parse is used when it succeeds; the repaired text is parsed only
   * when the first parse fails; a text without ש"ח gains nothing from the
   * repair; and an unreadable Realtors sheet makes both attempts throw.
   */
  lemma ParseWithRepairSpec(json: string, phone: string, timestamp: string, groupName: string, s: Services)
    ensures s.realtors.Failure? ==> ParseWithRepair(json, phone, timestamp, groupName, s) == None
    ensures s.realtors.Success? && s.parse(json).Some? ==>
      ParseWithRepair(json, phone, timestamp, groupName, s) == Some(BuildRow(s.parse(json).value, phone, timestamp, groupName, s).value)
    ensures s.realtors.Success? && s.parse(json).None? ==>
      ParseWithRepair(json, phone, timestamp, groupName, s) ==
        if s.parse(Repair(json)).Some? then Some(BuildRow(s.parse(Repair(json)).value, phone, timestamp, groupName, s).value) else None
    ensures !Contains(json, Shekel) && s.parse(json).None? ==> ParseWithRepair(json, phone, timestamp, groupName, s) == None
  {
    if !Contains(json, Shekel) {
      RepairNoop(json);
    }
  }

  /** What processMessage hands to the parse attempts: the cleaned model reply and the row's fixed columns. */
  datatype ModelAnswer = ModelAnswer(json: string, phone: string, timestamp: string, groupName: string)

  /**
   * processMessage up to the parse: the group name, timestamp, phone and text,
   * the guard, the model call with the prompt's lists filled in, and the
   * trimmed, fence-stripped reply; None when the guard fails or the model throws.
   */
  function ModelAnswerOf(msg: Message, s: Services): Option<ModelAnswer>
    requires msg.key.Some?
  {
    var key := msg.key.value;
    var groupName := GroupName(s, key.remoteJid);
    var timestamp := Timestamp(s.clock(msg));
    var phone := SenderPhone(key);
    var sender := if msg.pushName != "" then msg.pushName else "Unknown";
    var text := ListingText(msg.content);
    if text == "" || text == NonTextMarker || !s.modelReady then None
    else
      var prompt := ReplaceFirst(s.systemPrompt, ListsPlaceholder, PredefinedLists(s.lists));
      match s.model(prompt, MessageForModel(key.remoteJid, groupName, sender, phone, timestamp, text))
      case Failure(_) => None
      case Success(reply) => Some(ModelAnswer(StripFences(Trim(reply)), phone, timestamp, groupName))
  }

  /** The guard and the fixed columns of the answer. */
  lemma ModelAnswerSpec(msg: Message, s: Services)
    requires msg.key.Some?
    ensures ListingText(msg.content) == "" || ListingText(msg.content) == NonTextMarker || !s.modelReady ==> ModelAnswerOf(msg, s) == None
    ensures ModelAnswerOf(msg, s).Some? ==>
      && ModelAnswerOf(msg, s).value.phone == SenderPhone(msg.key.value)
      && ModelAnswerOf(msg, s).value.timestamp == Timestamp(s.clock(msg))
      && ModelAnswerOf(msg, s).value.groupName == GroupName(s, msg.key.value.remoteJid)
  {
  }

  /** processMessage's outcome for a message of a selected group: the emitted row, or None. */
  function Outcome(msg: Message, s: Services): Option<Row>
    requires msg.key.Some?
  {
    match ModelAnswerOf(msg, s)
    case None => None
    case Some(a) => ParseWithRepair(a.json, a.phone, a.timestamp, a.groupName, s)
  }

  /**
   * No row without text to extract from, a model client, a model reply or a
   * readable Realtors sheet; an emitted row carries the next asset id, the
   * sender's phone, the timestamp and the group name in their columns.
   */
  lemma OutcomeSpec(msg: Message, s: Services)
    requires msg.key.Some?
    ensures ListingText(msg.content) == "" || ListingText(msg.content) == NonTextMarker || !s.modelReady ==> Outcome(msg, s) == None
    ensures s.realtors.Failure? ==> Outcome(msg, s) == None
    ensures Outcome(msg, s).Some? ==>
      var row := Outcome(msg, s).value;
      && |row| == RowWidth
      && row[0] == NextAssetId(s.assets)
      && row[2] == SenderPhone(msg.key.value)
      && row[TimestampCol] == Timestamp(s.clock(msg))
      && row[GroupNameCol] == GroupName(s, msg.key.value.remoteJid)
  {
    ModelAnswerSpec(msg, s);
    match ModelAnswerOf(msg, s)
    case None =>
    case Some(a) =>
      ParseWithRepairSpec(a.json, a.phone, a.timestamp, a.groupName, s);
      ParsedRowLayout(a.json, a.phone, a.timestamp, a.groupName, s);
  }

  /** A row from either parse attempt has the row's width and the fixed columns in place. */
  lemma ParsedRowLayout(json: string, phone: string, timestamp: string, groupName: string, s: Services)
    ensures ParseWithRepair(json, phone, timestamp, groupName, s).Some? ==>
      var row := ParseWithRepair(json, phone, timestamp, groupName, s).value;
      && |row| == RowWidth && row[0] == NextAssetId(s.assets) && row[2] == phone
      && row[TimestampCol] == timestamp && row[GroupNameCol] == groupName
  {
    ParseWithRepairSpec(json, phone, timestamp, groupName, s);
    if s.realtors.Success? {
      if s.parse(json).Some? {
        BuiltRowLayout(s.parse(json).value, phone, timestamp, groupName, s);
      } else if s.parse(Repair(json)).Some? {
        BuiltRowLayout(s.parse(Repair(json)).value, phone, timestamp, groupName, s);
      }
    }
  }

  lemma BuiltRowLayout(f: Fields, phone: string, timestamp: string, groupName: string, s: Services)
    requires s.realtors.Success?
    ensures var row := BuildRow(f, phone, timestamp, groupName, s).value;
      && |row| == RowWidth && row[0] == NextAssetId(s.assets) && row[2] == phone
      && row[TimestampCol] == timestamp && row[GroupNameCol] == groupName
  {
    var realtor := GetRealtorInfo(phone, s.realtors).value;
    var merged := MergeNotes(f, LocationNotes(f, s.streets, LocationKinds));
    FinalRowLayout(NextAssetId(s.assets), realtor, phone, merged, timestamp, groupName);
  }

  /** The location-notes loop: validate each present location field, keep the non-empty notes. */
  method CollectLocationNotes(f: Fields, streets: SheetRead) returns (notes: seq<string>)
    ensures notes == LocationNotes(f, streets, LocationKinds)
  {
    notes := [];
    for i := 0 to |LocationKinds|
      invariant notes == LocationNotes(f, streets, LocationKinds[..i])
    {
      var (key, kind) := LocationKinds[i];
      assert LocationKinds[..i + 1][..i] == LocationKinds[..i];
      var value := FieldOr(f, key, "");
      if value != "" {
        var result := ValidateLocation(value, kind, streets);
        if result.internalNote != "" {
          notes := notes + [result.internalNote];
        }
      }
    }
    assert LocationKinds[..|LocationKinds|] == LocationKinds;
  }

  /** One parse attempt's work after JSON.parse: the notes, the merged internal notes, the lookups and the row. */
  method PrepareRow(parsed: Fields, phone: string, timestamp: string, groupName: string, s: Services) returns (r: Result<Row>)
    ensures r == BuildRow(parsed, phone, timestamp, groupName, s)
  {
    var fields := parsed;
    var notes := CollectLocationNotes(fields, s.streets);
    if |notes| > 0 {
      fields := fields[InternalNotesKey := FieldOr(fields, InternalNotesKey, "") + "\n" + Join(notes, "\n")];
    }
    var realtor := GetRealtorInfo(phone, s.realtors);
    if realtor.Failure? {
      return Failure(realtor.error);
    }
    var assetId := NextAssetId(s.assets);
    r := Success(FinalRow(assetId, realtor.value, phone, fields, timestamp, groupName));
  }

  /** The `processedMessage` events an outcome makes: one row, or none. */
  function RowsOf(o: Option<Row>): (r: seq<Row>)
    ensures o.None? ==> r == []
    ensures o.Some? ==> r == [o.value]
  {
    if o.Some? then [o.value] else []
  }

  /** The rows of a batch that one registered handler emits: each keyed message of a selected group, in order. */
  function BatchRows(ms: seq<Message>, groups: set<string>, s: Services): (r: seq<Row>)
    ensures |r| <= |ms|
  {
    if ms == [] then []
    else
      var m := ms[|ms| - 1];
      BatchRows(ms[..|ms| - 1], groups, s) + MessageRows(m, groups, s)
  }

  lemma BatchRowsSnoc(ms: seq<Message>, i: nat, groups: set<string>, s: Services)
    requires i < |ms|
    ensures BatchRows(ms[..i + 1], groups, s) == BatchRows(ms[..i], groups, s) + MessageRows(ms[i], groups, s)
  {
    assert ms[..i + 1][..i] == ms[..i];
  }

  /** The handler's loop over a batch: each keyed message of a selected group yields its row, if any. */
  method CollectRows(batch: seq<Message>, groups: set<string>, s: Services) returns (rows: seq<Row>)
    ensures rows == BatchRows(batch, groups, s)
  {
    rows := [];
    for i := 0 to |batch|
      invariant rows == BatchRows(batch[..i], groups, s)
    {
      BatchRowsSnoc(batch, i, groups, s);
      rows := rows + MessageRows(batch[i], groups, s);
    }
    assert batch[..|batch|] == batch;
  }

  /** The rows one message of a batch produces: none unless it has a key and comes from a selected group. */
  function MessageRows(m: Message, groups: set<string>, s: Services): (r: seq<Row>)
    ensures |r| <= 1
    ensures m.key.None? || m.key.value.remoteJid !in groups ==> r == []
  {
    if m.key.Some? && m.key.value.remoteJid in groups then RowsOf(Outcome(m, s)) else []
  }

  /** Messages outside the selected groups, and messages without a key, never produce a row. */
  lemma {:induction false} BatchRowsOutside(ms: seq<Message>, groups: set<string>, s: Services)
    requires forall i :: 0 <= i < |ms| ==> ms[i].key.None? || ms[i].key.value.remoteJid !in groups
    ensures BatchRows(ms, groups, s) == []
  {
    if ms != [] {
      BatchRowsOutside(ms[..|ms| - 1], groups, s);
    }
  }

  /** A batch of one message. */
  lemma BatchRowsSingle(m: Message, groups: set<string>, s: Services)
    ensures m.key.Some? && m.key.value.remoteJid in groups ==> BatchRows([m], groups, s) == RowsOf(Outcome(m, s))
    ensures m.key.None? || m.key.value.remoteJid !in groups ==> BatchRows([m], groups, s) == []
  {
    assert [m][..0] == [];
  }

  /** Clearing the selection silences every handler. */
  lemma BatchRowsNoGroups(ms: seq<Message>, s: Services)
    ensures BatchRows(ms, {}, s) == []
  {
    BatchRowsOutside(ms, {}, s);
  }

  /** Each of the n registered handlers runs the whole batch, one after the other. */
  function Repeat(xs: seq<Row>, n: nat): seq<Row>
  {
    if n == 0 then [] else Repeat(xs, n - 1) + xs
  }

  /** One handler emits a row once; two handlers emit it twice. */
  lemma RepeatOnceTwice(row: Row)
    ensures Repeat([row], 1) == [row]
    ensures Repeat([row], 2) == [row, row]
  {
  }

  /**
   * The listener: the selected group ids, the listening flag, the number of
   * `messages.upsert` handlers startListening has registered on the socket, and
   * the `processedMessage` rows emitted so far.
   */
  class GroupListener {
    var selectedGroups: set<string>
    var isListening: bool
    var handlers: nat
    var emitted: seq<Row>

    /** Exactly one handler while listening, none otherwise. */
    ghost predicate SingleHandler()
      reads this
    {
      handlers == if isListening then 1 else 0
    }

    constructor()
      ensures selectedGroups == {} && !isListening && handlers == 0 && emitted == []
      ensures SingleHandler()
    {
      selectedGroups := {};
      isListening := false;
      handlers := 0;
      emitted := [];
    }

    /** The selection is replaced by the given group ids. */
    method SetSelectedGroups(groups: seq<string>)
      modifies this
      ensures forall g :: g in selectedGroups <==> g in groups
      ensures isListening == old(isListening) && handlers == old(handlers) && emitted == old(emitted)
    {
      selectedGroups := set g | g in groups;
    }

    /**
     * A no-op while listening; otherwise waits for the connection, rethrowing its
     * error, then sets the flag and registers one more handler.
     */
    method StartListening(connection: Result<()>) returns (r: Result<()>)
      modifies this
      ensures selectedGroups == old(selectedGroups) && emitted == old(emitted)
      ensures old(isListening) ==> r.Success? && isListening && handlers == old(handlers)
      ensures !old(isListening) && connection.Failure? ==>
        r == Failure(connection.error) && !isListening && handlers == old(handlers)
      ensures !old(isListening) && connection.Success? ==>
        r.Success? && isListening && handlers == old(handlers) + 1
      ensures old(SingleHandler()) ==> SingleHandler()
    {
      if isListening {
        return Success(());
      }
      if connection.Failure? {
        return Failure(connection.error);
      }
      isListening := true;
      handlers := handlers + 1;
      r := Success(());
    }

    /** As written: the flag is cleared and the selection emptied, but the handler stays registered. */
    method StopListening()
      modifies this
      ensures !isListening && selectedGroups == {}
      ensures handlers == old(handlers) && emitted == old(emitted)
    {
      isListening := false;
      selectedGroups := {};
    }

    /** As intended: stopping also removes the registered handler. */
    method StopListeningDetached()
      modifies this
      ensures !isListening && selectedGroups == {} && handlers == 0
      ensures emitted == old(emitted)
      ensures SingleHandler()
    {
      isListening := false;
      selectedGroups := {};
      handlers := 0;
    }

    /** processMessage: emit the row extracted from the message, if any. */
    method ProcessMessage(msg: Message, s: Services)
      requires msg.key.Some?
      modifies this
      ensures emitted == old(emitted) + RowsOf(Outcome(msg, s))
      ensures selectedGroups == old(selectedGroups) && isListening == old(isListening) && handlers == old(handlers)
    {
      emitted := emitted + RowsOf(Outcome(msg, s));
    }

    /** One registered handler receiving a batch: each keyed message of a selected group is processed in turn. */
    method RunHandler(batch: seq<Message>, s: Services)
      modifies this
      ensures emitted == old(emitted) + BatchRows(batch, old(selectedGroups), s)
      ensures selectedGroups == old(selectedGroups) && isListening == old(isListening) && handlers == old(handlers)
    {
      var rows := CollectRows(batch, selectedGroups, s);
      emitted := emitted + rows;
    }

    /** A `messages.upsert` event: every registered handler runs on the batch. */
    method OnMessagesUpsert(batch: seq<Message>, s: Services)
      modifies this
      ensures emitted == old(emitted) + Repeat(BatchRows(batch, old(selectedGroups), s), old(handlers))
      ensures selectedGroups == old(selectedGroups) && isListening == old(isListening) && handlers == old(handlers)
    {
      var n := handlers;
      for h := 0 to n
        invariant selectedGroups == old(selectedGroups) && isListening == old(isListening) && handlers == old(handlers)
        invariant emitted == old(emitted) + Repeat(BatchRows(batch, old(selectedGroups), s), h)
      {
        RunHandler(batch, s);
      }
    }
  }

  /**
   * A fresh listener, started on the groups, stopped, given the groups again and
   * restarted; `detach` says whether stopping removes the handler.
   */
  method Restarted(groups: seq<string>, detach: bool) returns (listener: GroupListener)
    ensures fresh(listener)
    ensures listener.isListening && listener.emitted == []
    ensures forall g :: g in listener.selectedGroups <==> g in groups
    ensures listener.handlers == if detach then 1 else 2
  {
    listener := new GroupListener();
    listener.SetSelectedGroups(groups);
    var _ := listener.StartListening(Success(()));
    if detach {
      listener.StopListeningDetached();
    } else {
      listener.StopListening();
    }
    listener.SetSelectedGroups(groups);
    var _ := listener.StartListening(Success(()));
  }

  /**
   * Start, stop, reselect and start again, then one message of a selected group
   * whose extraction succeeds: as written, the row is emitted twice.
   */
  method RestartAsWritten(groups: seq<string>, msg: Message, s: Services) returns (rows: seq<Row>)
    requires msg.key.Some? && msg.key.value.remoteJid in groups && Outcome(msg, s).Some?
    ensures rows == [Outcome(msg, s).value, Outcome(msg, s).value]
  {
    var listener := Restarted(groups, false);
    BatchRowsSingle(msg, listener.selectedGroups, s);
    RepeatOnceTwice(Outcome(msg, s).value);
    listener.OnMessagesUpsert([msg], s);
    rows := listener.emitted;
  }

  /** The same sequence with the handler removed on stop: the row is emitted once. */
  method RestartCorrected(groups: seq<string>, msg: Message, s: Services) returns (rows: seq<Row>)
    requires msg.key.Some? && msg.key.value.remoteJid in groups && Outcome(msg, s).Some?
    ensures rows == [Outcome(msg, s).value]
  {
    var listener := Restarted(groups, true);
    BatchRowsSingle(msg, listener.selectedGroups, s);
    RepeatOnceTwice(Outcome(msg, s).value);
    listener.OnMessagesUpsert([msg], s);
    rows := listener.emitted;
  }
}
