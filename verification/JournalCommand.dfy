/** The browser's durable journal command (journal-command.ts): the pending record kept in
    one storage slot per scope, the check of the server's answer, and the class that saves,
    sends, looks up and clears under the scope's lock. */
module JournalCommand {
  import opened Base
  import opened DecimalText
  import opened WireText
  import opened JournalForm

  datatype CommandScope = CommandScope(userId: string, organizationId: string, branchId: Option<string>)

  predicate ValidScope(scope: CommandScope) {
    ValidId(scope.userId) && ValidId(scope.organizationId) && (scope.branchId.Some? ==> ValidId(scope.branchId.value))
  }

  datatype Payload = Payload(draft: JournalDraft, requestId: string)

  datatype PendingJournal = PendingJournal(userId: string, organizationId: string, payload: Payload)

  // ---------------------------------------------------------------- stored record

  /** UTF-16 units JSON.stringify spends on one character inside a string. */
  function JsonUnits(c: char): nat {
    if c == '"' || c == '\\' || c == '\U{0008}' || c == '\t' || c == '\n' || c == '\U{000C}' || c == '\r' then 2
    else if c < ' ' then 6
    else if c as int >= 0x10000 then 2
    else 1
  }

  function JsonCharsLength(s: string): nat {
    if s == [] then 0 else JsonCharsLength(s[..|s| - 1]) + JsonUnits(s[|s| - 1])
  }

  function JsonString(s: string): nat { 2 + JsonCharsLength(s) }

  function JsonNullable(s: Option<string>): nat {
    match s
    case None => |"null"|
    case Some(text) => JsonString(text)
  }

  function LineLength(line: DraftLine): nat {
    |"{\"account_id\":"| + JsonString(line.accountId) + |",\"debit\":"| + JsonString(line.debit)
    + |",\"credit\":"| + JsonString(line.credit) + |",\"description\":"| + JsonNullable(line.description) + |"}"|
  }

  /** Length of the lines with one comma after each but the last. */
  function LinesLength(lines: seq<DraftLine>): nat {
    if lines == [] then 0
    else LinesLength(lines[..|lines| - 1]) + (if |lines| == 1 then 0 else |","|) + LineLength(lines[|lines| - 1])
  }

  /** raw.length of the stored text. */
  function RecordLength(p: PendingJournal): nat {
    var d := p.payload.draft;
    |"{\"version\":1,\"userId\":"| + JsonString(p.userId) + |",\"organizationId\":"| + JsonString(p.organizationId)
    + |",\"payload\":{\"branch_id\":"| + JsonNullable(d.branchId) + |",\"booking_date\":"| + JsonString(d.bookingDate)
    + |",\"description\":"| + JsonString(d.description) + |",\"lines\":["| + LinesLength(d.lines)
    + |"],\"request_id\":"| + JsonString(p.payload.requestId) + |"}}"|
  }

  // The stored text itself, of which RecordLength is the length in UTF-16 units.

  function HexDigit(n: nat): char
    requires n < 16
  {
    "0123456789abcdef"[n]
  }

  function JsonChar(c: char): string {
    if c == '"' then "\\\""
    else if c == '\\' then "\\\\"
    else if c == '\U{0008}' then "\\b"
    else if c == '\t' then "\\t"
    else if c == '\n' then "\\n"
    else if c == '\U{000C}' then "\\f"
    else if c == '\r' then "\\r"
    else if c < ' ' then "\\u00" + [HexDigit(c as int / 16), HexDigit(c as int % 16)]
    else [c]
  }

  /** Different characters are written differently. */
  lemma JsonCharInjective(c: char, d: char)
    requires JsonChar(c) == JsonChar(d)
    ensures c == d
  {
    if JsonChar(c) == [c] {
      assert |JsonChar(d)| == 1;
    } else {
      assert JsonChar(c)[1] == JsonChar(d)[1];
      if JsonChar(c)[1] == 'u' {
        assert JsonChar(c)[4] == JsonChar(d)[4] && JsonChar(c)[5] == JsonChar(d)[5];
        HexDigitInjective(c as int / 16, d as int / 16);
        HexDigitInjective(c as int % 16, d as int % 16);
      }
    }
  }

  lemma HexDigitInjective(m: nat, n: nat)
    requires m < 16 && n < 16 && HexDigit(m) == HexDigit(n)
    ensures m == n
  {
  }

  function JsonChars(s: string): string {
    if s == [] then [] else JsonChars(s[..|s| - 1]) + JsonChar(s[|s| - 1])
  }

  function JsonQuoted(s: string): string { "\"" + JsonChars(s) + "\"" }

  function JsonOption(s: Option<string>): string {
    match s
    case None => "null"
    case Some(text) => JsonQuoted(text)
  }

  function JsonLine(line: DraftLine): string {
    "{\"account_id\":" + JsonQuoted(line.accountId) + ",\"debit\":" + JsonQuoted(line.debit)
    + ",\"credit\":" + JsonQuoted(line.credit) + ",\"description\":" + JsonOption(line.description) + "}"
  }

  function JsonLines(lines: seq<DraftLine>): string {
    if lines == [] then ""
    else JsonLines(lines[..|lines| - 1]) + (if |lines| == 1 then "" else ",") + JsonLine(lines[|lines| - 1])
  }

  function JsonRecord(p: PendingJournal): string {
    var d := p.payload.draft;
    "{\"version\":1,\"userId\":" + JsonQuoted(p.userId) + ",\"organizationId\":" + JsonQuoted(p.organizationId)
    + ",\"payload\":{\"branch_id\":" + JsonOption(d.branchId) + ",\"booking_date\":" + JsonQuoted(d.bookingDate)
    + ",\"description\":" + JsonQuoted(d.description) + ",\"lines\":[" + JsonLines(d.lines)
    + "],\"request_id\":" + JsonQuoted(p.payload.requestId) + "}}"
  }

  /** String.length: a character beyond the basic plane takes two units. */
  function Units(s: string): nat {
    if s == [] then 0 else Units(s[..|s| - 1]) + if s[|s| - 1] as int >= 0x10000 then 2 else 1
  }

  lemma {:induction false} UnitsAdd(a: string, b: string)
    ensures Units(a + b) == Units(a) + Units(b)
  {
    if b == [] {
      assert a + b == a;
    } else {
      assert (a + b)[..|a + b| - 1] == a + b[..|b| - 1];
      UnitsAdd(a, b[..|b| - 1]);
    }
  }

  lemma {:induction false} BasicUnits(s: string)
    requires forall i :: 0 <= i < |s| ==> s[i] as int < 0x10000
    ensures Units(s) == |s|
  {
    if s != [] {
      BasicUnits(s[..|s| - 1]);
    }
  }

  lemma CharUnits(c: char)
    ensures Units(JsonChar(c)) == JsonUnits(c)
  {
    var t := JsonChar(c);
    if c as int < 0x10000 {
      BasicUnits(t);
    } else {
      assert t == [c] && t[..0] == [];
    }
  }

  lemma {:induction false} CharsUnits(s: string)
    ensures Units(JsonChars(s)) == JsonCharsLength(s)
  {
    hide JsonChar, JsonUnits, Units;
    if s == [] {
      BasicUnits([]);
    } else {
      CharsUnits(s[..|s| - 1]);
      CharUnits(s[|s| - 1]);
      UnitsAdd(JsonChars(s[..|s| - 1]), JsonChar(s[|s| - 1]));
    }
  }

  lemma QuotedUnits(s: string)
    ensures Units(JsonQuoted(s)) == JsonString(s)
  {
    hide JsonChars, JsonCharsLength, Units;
    CharsUnits(s);
    BasicUnits("\"");
    UnitsAdd("\"", JsonChars(s));
    UnitsAdd("\"" + JsonChars(s), "\"");
  }

  lemma OptionUnits(s: Option<string>)
    ensures Units(JsonOption(s)) == JsonNullable(s)
  {
    hide JsonQuoted, JsonString, Units;
    BasicUnits("null");
    if s.Some? {
      QuotedUnits(s.value);
    }
  }

  /** A piece of fixed text and a piece with a known number of units. */
  lemma PieceUnits(before: string, key: string, piece: string)
    requires forall i :: 0 <= i < |key| ==> key[i] as int < 0x10000
    ensures Units(before + key + piece) == Units(before) + |key| + Units(piece)
  {
    hide Units;
    UnitsAdd(before, key);
    UnitsAdd(before + key, piece);
    BasicUnits(key);
  }

  lemma LineUnits(line: DraftLine)
    ensures Units(JsonLine(line)) == LineLength(line)
  {
    hide JsonQuoted, JsonString, JsonOption, JsonNullable, Units;
    QuotedUnits(line.accountId);
    QuotedUnits(line.debit);
    QuotedUnits(line.credit);
    OptionUnits(line.description);
    var a := "{\"account_id\":" + JsonQuoted(line.accountId);
    assert a == [] + "{\"account_id\":" + JsonQuoted(line.accountId);
    BasicUnits([]);
    PieceUnits([], "{\"account_id\":", JsonQuoted(line.accountId));
    PieceUnits(a, ",\"debit\":", JsonQuoted(line.debit));
    var b := a + ",\"debit\":" + JsonQuoted(line.debit);
    PieceUnits(b, ",\"credit\":", JsonQuoted(line.credit));
    var c := b + ",\"credit\":" + JsonQuoted(line.credit);
    PieceUnits(c, ",\"description\":", JsonOption(line.description));
    PieceUnits(c + ",\"description\":" + JsonOption(line.description), "}", []);
    assert JsonLine(line) == c + ",\"description\":" + JsonOption(line.description) + "}" + [];
  }

  lemma {:induction false} LinesUnits(lines: seq<DraftLine>)
    ensures Units(JsonLines(lines)) == LinesLength(lines)
  {
    hide JsonLine, LineLength, Units;
    if lines == [] {
      BasicUnits("");
    } else {
      var front, comma := JsonLines(lines[..|lines| - 1]), if |lines| == 1 then "" else ",";
      LinesUnits(lines[..|lines| - 1]);
      LineUnits(lines[|lines| - 1]);
      PieceUnits(front, comma, JsonLine(lines[|lines| - 1]));
    }
  }

  /** RecordLength is the length of the text that JSON.stringify stores. */
  lemma RecordLengthExactly(p: PendingJournal)
    ensures Units(JsonRecord(p)) == RecordLength(p)
  {
    hide JsonQuoted, JsonString, JsonOption, JsonNullable, JsonLines, LinesLength, Units;
    var d := p.payload.draft;
    QuotedUnits(p.userId);
    QuotedUnits(p.organizationId);
    OptionUnits(d.branchId);
    QuotedUnits(d.bookingDate);
    QuotedUnits(d.description);
    LinesUnits(d.lines);
    QuotedUnits(p.payload.requestId);
    BasicUnits([]);
    var start := "{\"version\":1,\"userId\":";
    var a := start + JsonQuoted(p.userId);
    assert a == [] + start + JsonQuoted(p.userId);
    PieceUnits([], start, JsonQuoted(p.userId));
    PieceUnits(a, ",\"organizationId\":", JsonQuoted(p.organizationId));
    var b := a + ",\"organizationId\":" + JsonQuoted(p.organizationId);
    PieceUnits(b, ",\"payload\":{\"branch_id\":", JsonOption(d.branchId));
    var c := b + ",\"payload\":{\"branch_id\":" + JsonOption(d.branchId);
    PieceUnits(c, ",\"booking_date\":", JsonQuoted(d.bookingDate));
    var e := c + ",\"booking_date\":" + JsonQuoted(d.bookingDate);
    PieceUnits(e, ",\"description\":", JsonQuoted(d.description));
    var f := e + ",\"description\":" + JsonQuoted(d.description);
    PieceUnits(f, ",\"lines\":[", JsonLines(d.lines));
    var g := f + ",\"lines\":[" + JsonLines(d.lines);
    PieceUnits(g, "],\"request_id\":", JsonQuoted(p.payload.requestId));
    PieceUnits(g + "],\"request_id\":" + JsonQuoted(p.payload.requestId), "}}", []);
    assert JsonRecord(p) == g + "],\"request_id\":" + JsonQuoted(p.payload.requestId) + "}}" + [];
  }

  const MAX_RECORD := 100000

  /** What the slot's text is: the serialisation of a record, or any other text. */
  datatype Stored = Json(record: PendingJournal) | OtherText

  datatype ReadResult = Nothing | Found(pending: PendingJournal) | Unreadable

  /** readPendingJournal: an unreadable or foreign text is never treated as absence. */
  function ReadPending(slot: Option<Stored>, scope: CommandScope): ReadResult {
    match slot
    case None => Nothing
    case Some(OtherText) => Unreadable
    case Some(Json(saved)) =>
      if RecordLength(saved) > MAX_RECORD then Unreadable
      else if saved.userId != scope.userId || saved.organizationId != scope.organizationId
              || !ValidId(saved.payload.requestId) || saved.payload.draft.branchId != scope.branchId then Unreadable
      else if Normalize(saved.payload.draft) != Some(saved.payload.draft) then Unreadable
      else Found(saved)
  }

  /** The record confirm builds from an accepted draft. */
  function NewPending(scope: CommandScope, body: JournalDraft, requestId: string): PendingJournal {
    PendingJournal(scope.userId, scope.organizationId, Payload(body, requestId))
  }

  /** A saved record is read back unchanged exactly when its text keeps the length limit. */
  lemma ReadBackExactly(scope: CommandScope, draft: JournalDraft, requestId: string)
    requires Normalize(draft).Some? && ValidId(requestId)
    requires Normalize(draft).value.branchId == scope.branchId
    ensures var p := NewPending(scope, Normalize(draft).value, requestId);
            ReadPending(Some(Json(p)), scope) == if RecordLength(p) <= 100000 then Found(p) else Unreadable
  {
    hide Normalize;
    NormalizeIdempotent(draft);
  }

  /** What a slot is found to hold is exactly what confirm could have saved in that scope: the
      record of some accepted draft, short enough to be read. */
  lemma FoundExactlyOwnRecords(scope: CommandScope, p: PendingJournal)
    ensures ReadPending(Some(Json(p)), scope) == Found(p) <==>
            && RecordLength(p) <= MAX_RECORD && ValidId(p.payload.requestId)
            && exists draft ::
                 && Normalize(draft).Some? && Normalize(draft).value.branchId == scope.branchId
                 && p == NewPending(scope, Normalize(draft).value, p.payload.requestId)
  {
    hide Normalize, RecordLength, ValidId;
    if ReadPending(Some(Json(p)), scope) == Found(p) {
      assert p == NewPending(scope, Normalize(p.payload.draft).value, p.payload.requestId);
    }
    forall draft | && Normalize(draft).Some? && Normalize(draft).value.branchId == scope.branchId
                   && p == NewPending(scope, Normalize(draft).value, p.payload.requestId)
      ensures Normalize(p.payload.draft) == Some(p.payload.draft)
    {
      NormalizeIdempotent(draft);
    }
  }

  /** An empty slot is the only absence; a text that is no such record blocks instead. */
  lemma AbsenceExactly(scope: CommandScope, slot: Option<Stored>)
    ensures ReadPending(slot, scope) == Nothing <==> slot == None
    ensures ReadPending(slot, scope).Found? ==> slot == Some(Json(ReadPending(slot, scope).pending))
  {
    hide Normalize, RecordLength, ValidId;
  }

  // ---------------------------------------------------------------- server's answer

  datatype WireLine = WireLine(
    accountId: string, lineNumber: int, debit: string, credit: string, description: Option<string>)

  datatype WireJournal = WireJournal(
    id: string, organizationId: string, branchId: Option<string>, requestId: string, bookingDate: string,
    description: string, currency: string, status: string, reversalOfId: Option<string>, postedBy: string,
    postedAt: Option<int>, totalDebit: string, totalCredit: string, lines: seq<WireLine>)

  predicate LineMatches(wire: WireLine, line: DraftLine, number: int) {
    && wire.lineNumber == number && wire.accountId == line.accountId
    && wire.debit == line.debit && wire.credit == line.credit && wire.description == line.description
  }

  /** verifiedJournal: the answer shows exactly the confirmed payload, posted by its user. */
  predicate Verified(answer: WireJournal, pending: PendingJournal) {
    var body := pending.payload.draft;
    && ValidId(answer.id)
    && answer.status == "POSTED"
    && answer.organizationId == pending.organizationId
    && answer.branchId == body.branchId
    && answer.requestId == pending.payload.requestId
    && answer.currency == "SAR"
    && answer.reversalOfId == None
    && answer.postedBy == pending.userId
    && answer.postedAt.Some?
    && answer.bookingDate == body.bookingDate
    && answer.description == body.description
    && TotalsText(body.lines) == Some(Totals(answer.totalDebit, answer.totalCredit))
    && |answer.lines| == |body.lines|
    && forall i :: 0 <= i < |body.lines| ==> LineMatches(answer.lines[i], body.lines[i], i + 1)
  }

  /** The check leaves nothing open: apart from the journal's own id and the time of posting,
      only one answer is ever accepted for a record. */
  lemma VerifiedIsExact(a: WireJournal, b: WireJournal, pending: PendingJournal)
    requires Verified(a, pending) && Verified(b, pending) && a.id == b.id && a.postedAt == b.postedAt
    ensures a == b && ValidId(a.id) && a.postedAt.Some?
  {
    hide TotalsText, ValidId;
    var lines := pending.payload.draft.lines;
    forall i | 0 <= i < |lines|
      ensures a.lines[i] == b.lines[i]
    {
      assert LineMatches(a.lines[i], lines[i], i + 1) && LineMatches(b.lines[i], lines[i], i + 1);
    }
    assert a.lines == b.lines;
  }

  // ---------------------------------------------------------------- commands

  /** What a request comes back with: a body, an error status, or no usable answer. */
  datatype Answer = Body(journal: WireJournal) | Status(code: int) | NoAnswer

  datatype Problem = Invalid | Storage | Pending | Response | Missing

  datatype Outcome = Delivered(journal: WireJournal) | NotYet | Refused(problem: Problem) | Failed(status: int) | Lost

  predicate DefiniteRejection(status: int) { status in {400, 403, 404, 413, 422} }

  const CONTEXT_CHANGED := 409

  /** What surrounds an answer's arrival: whether the session is still the one of the request,
      and whether the storage lets an item be removed. */
  datatype Setting = Setting(contextHolds: bool, removes: bool)

  /** Slot and outcome after clear(pending). */
  function Cleared(slot: Option<Stored>, scope: CommandScope, pending: PendingJournal, removes: bool)
    : (Option<Stored>, bool)
  {
    if ReadPending(slot, scope) == Found(pending) && removes then (None, true) else (slot, false)
  }

  /** The part of send after the request settled. */
  function FinishSend(slot: Option<Stored>, scope: CommandScope, pending: PendingJournal, answer: Answer, at: Setting)
    : (Option<Stored>, Outcome)
  {
    match answer
    case Status(code) => (slot, Failed(code))
    case NoAnswer => (slot, Lost)
    case Body(journal) =>
      if !at.contextHolds then (slot, Failed(CONTEXT_CHANGED))
      else if !Verified(journal, pending) then (slot, Refused(Response))
      else
        var (after, ok) := Cleared(slot, scope, pending, at.removes);
        (after, if ok then Delivered(journal) else Refused(Storage))
  }

  /** confirm's catch clause: only a definite rejection of this first attempt clears. */
  function FinishConfirm(slot: Option<Stored>, scope: CommandScope, pending: PendingJournal, answer: Answer,
                         at: Setting)
    : (Option<Stored>, Outcome)
  {
    var (after, outcome) := FinishSend(slot, scope, pending, answer, at);
    if outcome.Failed? && DefiniteRejection(outcome.status) then
      if !at.contextHolds then (after, Failed(CONTEXT_CHANGED))
      else
        var (cleared, ok) := Cleared(after, scope, pending, at.removes);
        (cleared, if ok then outcome else Refused(Storage))
    else (after, outcome)
  }

  function FinishLookup(slot: Option<Stored>, scope: CommandScope, pending: PendingJournal, answer: Answer, at: Setting)
    : (Option<Stored>, Outcome)
  {
    if !at.contextHolds then (slot, Failed(CONTEXT_CHANGED))
    else match answer
      case Status(code) => (slot, if code == 404 then NotYet else Failed(code))
      case NoAnswer => (slot, Lost)
      case Body(journal) => FinishSend(slot, scope, pending, answer, at)
  }

  /** What setItem does: it throws, or leaves some text in the slot, which may be another one, and
      which getItem may fail to give back. */
  datatype Writing = Throws | Leaves(text: Stored, readable: bool)

  /** One scope's commands in one tab. Every method runs while the scope's lock is held, so
      the slot changes only here; what the transport, the storage and the session do in the
      meantime are parameters. */
  class JournalCommands {
    const scope: CommandScope
    var slot: Option<Stored>

    constructor (scope: CommandScope, stored: Option<Stored>)
      requires ValidScope(scope)
      ensures this.scope == scope && slot == stored
    {
      this.scope := scope;
      slot := stored;
    }

    /** Stored means that the storage gives the same text back. */
    method Save(pending: PendingJournal, writing: Writing) returns (ok: bool)
      modifies this`slot
      ensures slot == (match writing case Throws => old(slot) case Leaves(text, _) => Some(text))
      ensures ok <==> writing == Leaves(Json(pending), true)
    {
      match writing {
        case Throws => ok := false;
        case Leaves(text, readable) =>
          slot := Some(text);
          ok := readable && slot == Some(Json(pending));
      }
    }

    method Clear(pending: PendingJournal, removes: bool) returns (ok: bool)
      modifies this`slot
      ensures (slot, ok) == Cleared(old(slot), scope, pending, removes)
    {
      var current := ReadPending(slot, scope);
      if current != Found(pending) {
        return false;
      }
      if !removes {
        return false;
      }
      slot := None;
      ok := true;
    }

    method Send(pending: PendingJournal, answer: Answer, at: Setting) returns (r: Outcome)
      modifies this`slot
      ensures (slot, r) == FinishSend(old(slot), scope, pending, answer, at)
    {
      match answer {
        case Status(code) => return Failed(code);
        case NoAnswer => return Lost;
        case Body(journal) =>
          if !at.contextHolds {
            return Failed(CONTEXT_CHANGED);
          }
          if !Verified(journal, pending) {
            return Refused(Response);
          }
          var ok := Clear(pending, at.removes);
          r := if ok then Delivered(journal) else Refused(Storage);
      }
    }

    /** confirm reaches its storage write. */
    ghost predicate Confirms(draft: JournalDraft, newId: string, contextBefore: bool)
      reads this
    {
      && Normalize(draft).Some? && Normalize(draft).value.branchId == scope.branchId && contextBefore
      && ReadPending(slot, scope) == Nothing && ValidId(newId)
    }

    /** Nothing is sent unless the slot was empty and the record is stored first; afterwards
        the slot holds that record unless the outcome is a verified success or a definite
        rejection of this very attempt. */
    method Confirm(draft: JournalDraft, newId: string, writing: Writing, answer: Answer, contextBefore: bool,
                   after: Setting)
      returns (r: Outcome, sent: bool)
      modifies this`slot
      ensures !old(Confirms(draft, newId, contextBefore)) ==>
                && !sent && slot == old(slot)
                && r == if Normalize(draft).None? || Normalize(draft).value.branchId != scope.branchId
                  then Refused(Invalid)
                        else if !contextBefore then Failed(409)
                        else match ReadPending(old(slot), scope)
                             case Found(_) => Refused(Pending)
                             case Unreadable => Refused(Storage)
                             case Nothing => Refused(Invalid)
      ensures old(Confirms(draft, newId, contextBefore)) ==>
                var p := NewPending(scope, Normalize(draft).value, newId);
                && (sent <==> writing == Leaves(Json(p), true))
                && (!sent ==> slot == (match writing case Throws => old(slot) case Leaves(text, _) => Some(text)))
                && (!sent ==> r == Refused(Storage))
                && (sent ==> (slot, r) == FinishConfirm(Some(Json(p)), scope, p, answer, after))
    {
      var body := Normalize(draft);
      if body.None? || body.value.branchId != scope.branchId {
        return Refused(Invalid), false;
      }
      if !contextBefore {
        return Failed(CONTEXT_CHANGED), false;
      }
      match ReadPending(slot, scope) {
        case Found(_) => return Refused(Pending), false;
        case Unreadable => return Refused(Storage), false;
        case Nothing =>
      }
      if !ValidId(newId) {
        return Refused(Invalid), false;
      }
      var pending := NewPending(scope, body.value, newId);
      var saved := Save(pending, writing);
      if !saved {
        return Refused(Storage), false;
      }
      sent := true;
      r := Send(pending, answer, after);
      if r.Failed? && DefiniteRejection(r.status) {
        if !after.contextHolds {
          r := Failed(CONTEXT_CHANGED);
        } else {
          var ok := Clear(pending, after.removes);
          r := if ok then r else Refused(Storage);
        }
      }
    }

    method Reconcile(answer: Answer, contextBefore: bool, after: Setting) returns (r: Outcome)
      modifies this`slot
      ensures contextBefore && ReadPending(old(slot), scope).Found? ==>
                (slot, r) == FinishLookup(old(slot), scope, ReadPending(old(slot), scope).pending, answer, after)
      ensures !(contextBefore && ReadPending(old(slot), scope).Found?) ==>
                slot == old(slot) && r == Unrecoverable(old(slot), contextBefore)
    {
      if !contextBefore {
        return Failed(CONTEXT_CHANGED);
      }
      match ReadPending(slot, scope) {
        case Nothing => return Refused(Missing);
        case Unreadable => return Refused(Storage);
        case Found(pending) =>
          if !after.contextHolds {
            return Failed(CONTEXT_CHANGED);
          }
          match answer {
            case Status(code) => return if code == 404 then NotYet else Failed(code);
            case NoAnswer => return Lost;
            case Body(journal) =>
              if !Verified(journal, pending) {
                return Refused(Response);
              }
              var ok := Clear(pending, after.removes);
              r := if ok then Delivered(journal) else Refused(Storage);
          }
      }
    }

    /** Nothing to recover: the session changed, the record cannot be read, or there is none. */
    function Unrecoverable(was: Option<Stored>, contextBefore: bool): Outcome {
      if !contextBefore then Failed(409)
      else if ReadPending(was, scope).Unreadable? then Refused(Storage)
      else Refused(Missing)
    }

    /** A resend never clears on a rejection, whatever its status. */
    method Resend(answer: Answer, contextBefore: bool, after: Setting) returns (r: Outcome)
      modifies this`slot
      ensures contextBefore && ReadPending(old(slot), scope).Found? ==>
                (slot, r) == FinishSend(old(slot), scope, ReadPending(old(slot), scope).pending, answer, after)
      ensures !(contextBefore && ReadPending(old(slot), scope).Found?) ==>
                slot == old(slot) && r == Unrecoverable(old(slot), contextBefore)
    {
      if !contextBefore {
        return Failed(CONTEXT_CHANGED);
      }
      match ReadPending(slot, scope) {
        case Nothing => r := Refused(Missing);
        case Unreadable => r := Refused(Storage);
        case Found(pending) => r := Send(pending, answer, after);
      }
    }
  }

  // ---------------------------------------------------------------- what clearing means

  /** A settled confirm empties the slot exactly on a verified answer or on one of five statuses,
      in the unchanged session, of a record that can be read back; a conflict, a lost answer or
      a gateway's error leaves it. */
  lemma ConfirmClearsExactly(scope: CommandScope, p: PendingJournal, answer: Answer, at: Setting)
    ensures var (after, outcome) := FinishConfirm(Some(Json(p)), scope, p, answer, at);
            && (after == None <==>
                  || Clearing(scope, p, answer, at)
                  || (&& at.contextHolds && at.removes && ReadPending(Some(Json(p)), scope) == Found(p)
                      && answer.Status?
                      && (|| answer.code == 400 || answer.code == 403 || answer.code == 404
                          || answer.code == 413 || answer.code == 422)))
            && (after.Some? ==> after == Some(Json(p)))
            && (outcome.Delivered? <==> Clearing(scope, p, answer, at))
  {
    hide Verified, ReadPending;
  }

  /** A resend or a lookup empties it exactly on a verified answer, whatever the status of
      any rejection. */
  lemma RecoveryClearsExactly(scope: CommandScope, p: PendingJournal, answer: Answer, at: Setting)
    ensures var (after, outcome) := FinishSend(Some(Json(p)), scope, p, answer, at);
            && (after == None <==> Clearing(scope, p, answer, at))
            && (after.Some? ==> after == Some(Json(p)))
            && (outcome.Delivered? <==> after == None)
    ensures var (after, outcome) := FinishLookup(Some(Json(p)), scope, p, answer, at);
            && (after == None <==> Clearing(scope, p, answer, at))
            && (after.Some? ==> after == Some(Json(p)))
            && (outcome.Delivered? <==> after == None)
  {
    hide Verified, ReadPending;
  }

  /** A verified answer in the unchanged session, to a record that can be read back. */
  predicate Clearing(scope: CommandScope, p: PendingJournal, answer: Answer, at: Setting) {
    && at.contextHolds && at.removes && ReadPending(Some(Json(p)), scope) == Found(p)
    && answer.Body? && Verified(answer.journal, p)
  }

  /** What the user is told, case by case: a verified answer that cannot be cleared is a storage
      problem, one that does not verify a problem of the response, a lookup's 404 means not yet,
      and a changed session is a conflict. */
  lemma OutcomesExactly(scope: CommandScope, p: PendingJournal, answer: Answer, at: Setting)
    ensures var found := ReadPending(Some(Json(p)), scope) == Found(p);
            var confirmed, sent, lookedUp := FinishConfirm(Some(Json(p)), scope, p, answer, at).1,
                FinishSend(Some(Json(p)), scope, p, answer, at).1, FinishLookup(Some(Json(p)), scope, p, answer, at).1;
            match answer
            case NoAnswer => confirmed == sent == Lost && lookedUp == if at.contextHolds then Lost else Failed(409)
            case Status(code) =>
              && sent == Failed(code)
              && (lookedUp == if !at.contextHolds then Failed(409) else if code == 404 then NotYet else Failed(code))
              && (confirmed == if code !in {400, 403, 404, 413, 422} then Failed(code)
                               else if !at.contextHolds then Failed(409)
                               else if found && at.removes then Failed(code)
                               else Refused(Storage))
            case Body(journal) =>
              && confirmed == sent == lookedUp
              && sent == if !at.contextHolds then Failed(409)
                         else if !Verified(journal, p) then Refused(Response)
                         else if found && at.removes then Delivered(journal)
                         else Refused(Storage)
  {
    hide Verified, ReadPending;
  }

  /** A record over the limit is sent, yet no answer can ever clear it: the command stays
      blocked even after a verified success. */
  lemma OversizedRecordStaysForever(scope: CommandScope, p: PendingJournal, answer: Answer, at: Setting)
    requires RecordLength(p) > MAX_RECORD
    ensures ReadPending(Some(Json(p)), scope) == Unreadable
    ensures FinishConfirm(Some(Json(p)), scope, p, answer, at).0 == Some(Json(p))
    ensures !FinishConfirm(Some(Json(p)), scope, p, answer, at).1.Delivered?
  {
    ConfirmClearsExactly(scope, p, answer, at);
  }

  // ---------------------------------------------------------------- an accepted draft over the limit

  function SampleId(): (s: string)
    ensures ValidId(s)
  {
    seq(36, i => if i == 8 || i == 13 || i == 18 || i == 23 then '-' else 'a')
  }

  function LongNote(): (s: string)
    ensures |s| == 500 && forall i :: 0 <= i < 500 ==> s[i] == '"'
  {
    seq(500, _ => '"')
  }

  function LongLine(i: nat): DraftLine {
    DraftLine(SampleId(), if i < 50 then "1.00" else "0.00", if i < 50 then "0.00" else "1.00", Some(LongNote()))
  }

  function LongLines(): (lines: seq<DraftLine>)
    ensures |lines| == 100 && forall i :: 0 <= i < 100 ==> lines[i] == LongLine(i)
  {
    seq(100, i requires 0 <= i => LongLine(i))
  }

  function LongDraft(): JournalDraft { JournalDraft(None, "2026-10-07", "note", LongLines()) }

  /** A hundred lines with 500-character notes, as the form allows: normalizeJournal leaves
      the draft as it is, and its record is over the limit for every user and id. */
  lemma AcceptedDraftOverTheLimit(scope: CommandScope, requestId: string)
    ensures Normalize(LongDraft()) == Some(LongDraft())
    ensures RecordLength(NewPending(scope, LongDraft(), requestId)) > MAX_RECORD
  {
    hide Normalize, LineLength, LinesLength, LongLines, LongNote;
    LongDraftNormal();
    LongLinesLength(LongLines());
  }

  lemma {:induction false} QuoteUnits(s: string)
    requires forall i :: 0 <= i < |s| ==> s[i] == '"'
    ensures JsonCharsLength(s) == 2 * |s|
  {
    if s != [] {
      QuoteUnits(s[..|s| - 1]);
    }
  }

  lemma {:induction false} LongLinesLength(lines: seq<DraftLine>)
    requires forall i :: 0 <= i < |lines| ==> lines[i].description == Some(LongNote())
    ensures LinesLength(lines) >= |lines| * 1002
  {
    if lines != [] {
      LongLinesLength(lines[..|lines| - 1]);
      QuoteUnits(LongNote());
      assert LineLength(lines[|lines| - 1]) >= JsonString(LongNote());
    }
  }

  lemma LongLineNormal(i: nat)
    ensures NormalizeLine(LongLine(i)) == Some(LongLine(i))
    ensures LineCents(LongLine(i)) == Some(HalfAndHalf(i))
  {
    hide Trim, JournalCents, CentsAmount, LongNote, SampleId;
    SmallAmounts();
    NoteTrimmed();
  }

  lemma NoteTrimmed()
    ensures Trim(LongNote()) == LongNote()
  {
    hide Trim;
    TrimSettles(LongNote());
  }

  lemma SmallAmounts()
    ensures CentsAmount(100) == "1.00" && CentsAmount(0) == "0.00"
    ensures JournalCents("1.00") == Some(100) && JournalCents("0.00") == Some(0)
  {
    hide JournalCents;
    CentsRoundTrip(100);
    CentsRoundTrip(0);
  }

  function HalfAndHalf(i: nat): Cents { if i < 50 then Cents(100, 0) else Cents(0, 100) }

  lemma {:induction false} LongTotals(lines: seq<DraftLine>)
    requires |lines| <= 100
    requires forall i :: 0 <= i < |lines| ==> LineCents(lines[i]) == Some(HalfAndHalf(i))
    ensures TotalCents(lines) ==
            Some(if |lines| <= 50 then Cents(100 * |lines|, 0) else Cents(5000, 100 * (|lines| - 50)))
  {
    hide LineCents;
    if lines != [] {
      LongTotals(lines[..|lines| - 1]);
    }
  }

  lemma LongLinesNormal()
    ensures NormalizeLines(LongLines()) == Some(LongLines())
    ensures TotalCents(LongLines()) == Some(Cents(5000, 5000))
  {
    hide NormalizeLine, LineCents, LongLine, TotalCents, HalfAndHalf;
    var lines := LongLines();
    forall i | 0 <= i < |lines|
      ensures NormalizeLine(lines[i]) == Some(lines[i])
      ensures LineCents(lines[i]) == Some(HalfAndHalf(i))
    {
      LongLineNormal(i);
    }
    NormalizeLinesPointwise(lines);
    assert NormalizeLines(lines).value == lines;
    LongTotals(lines);
  }

  lemma LongDraftNormal()
    ensures Normalize(LongDraft()) == Some(LongDraft())
  {
    hide NormalizeLines, TotalCents, LongLines, Trim, ValidDate;
    LongLinesNormal();
    assert Trimmed(IsSpace, "note");
    TrimSettles("note");
    SampleDate();
    assert AcceptableHeader(LongDraft());
    assert TotalsText(LongLines()).Some?;
  }

  lemma SampleDate()
    ensures ValidDate("2026-10-07")
  {
    hide DigitsValue;
    var s := "2026-10-07";
    assert s[..4] == ['2', '0', '2', '6'] && s[5..7] == ['1', '0'] && s[8..] == ['0', '7'];
    assert AllDigits(s[..4]) && AllDigits(s[5..7]) && AllDigits(s[8..]);
    assert DateShape(s);
    TwoDigitsValue('1', '0');
    TwoDigitsValue('0', '7');
    assert DigitsValue(s[5..7]) == 10 && DigitsValue(s[8..]) == 7;
  }

  lemma TwoDigitsValue(a: char, b: char)
    requires IsDigit(a) && IsDigit(b)
    ensures DigitsValue([a, b]) == DigitValue(a) * 10 + DigitValue(b)
  {
    DigitsValueConcat([a], [b]);
    assert [a, b] == [a] + [b];
    assert [a][..0] == [] && [b][..0] == [];
    assert DigitsValue([a]) == DigitValue(a) && DigitsValue([b]) == DigitValue(b);
  }
}
