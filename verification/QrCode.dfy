/** The QR text of a receipt: its printer, the verifier that reads it, and the theorem that joins the two
    through the device, the handler and the signature table. */
module QrCode {

  import opened Wrappers
  import opened Text
  import opened Calendar
  import opened SignatureTable
  import Der
  import D = VirtualTse
  import K = Kassenbeleg
  import Signing
  import SigningHistory
  import SigningSafety

  const VERSION := "V0"
  const HASH_ALGORITHM := "ecdsa-plain-SHA384"
  const TIME_FORMAT := "unixTime"

  // ---- the printer -------------------------------------------------------------------

  datatype OrderWithTse = OrderWithTse(tillId: int, processType: string, processData: string, transaction: string,
                                       signatureNumber: string, start: string, end: string, hashAlgorithm: string,
                                       timeFormat: string, signature: string, publicKey: string)

  function Parts(o: OrderWithTse): seq<string>
  {
    [VERSION, PrintInt(o.tillId), o.processType, o.processData, o.transaction, o.signatureNumber, o.start, o.end,
     o.hashAlgorithm, o.timeFormat, o.signature, o.publicKey]
  }

  function QrCodeText(o: OrderWithTse): string { Join(Parts(o), ';') }

  /** The row of a signed order as the handler and the wrapper write it; None where a log time is unreadable. */
  function Stored(row: Row, g: Signature, signature: string, publicKey: string): Option<OrderWithTse>
    requires 0 <= g.start.offset < 86400 && g.start.instant >= 0
    requires 0 <= g.end.offset < 86400 && g.end.instant >= 0
  {
    match (UtcText(PrintStamp(g.start.instant, g.start.offset)), UtcText(PrintStamp(g.end.instant, g.end.offset)))
    case (Some(start), Some(end)) =>
      Some(OrderWithTse(row.till, row.processType, row.processData, PrintInt(g.number), PrintInt(g.counter), start, end,
                        HASH_ALGORITHM, TIME_FORMAT, signature, publicKey))
    case _ => None
  }

  // ---- the verifier ------------------------------------------------------------------

  datatype Error = NotImplemented | IndexError | ValueError

  /** The content the text states, when every part can be read. `serialOf` decodes a public key and
      takes its digest. */
  function Reads(qr: seq<string>, serialOf: string -> Option<Der.Bytes>): Option<Der.Content>
  {
    if |qr| < 12 || qr[0] != VERSION || qr[8] != HASH_ALGORITHM || qr[9] != TIME_FORMAT then None
    else
      match (ParseInt(qr[4]), ParseInt(qr[5]), InstantOfUtcText(qr[7]), serialOf(qr[11]))
      case (Some(number), Some(counter), Some(logTime), Some(serial)) =>
        Some(Der.Content(qr[1], qr[3], qr[2], number, counter, logTime, serial))
      case _ => None
  }

  function RebuiltMessage(qrCode: string, serialOf: string -> Option<Der.Bytes>): Option<Der.Bytes>
  {
    match Reads(Split(qrCode, ';'), serialOf)
    case Some(content) => Der.Message(content)
    case None => None
  }

  /** The verifier's main up to the message it checks the signature against: the records are filled in
      the order of the source, and the first part that cannot be used decides the error. */
  method RebuildMessage(qrCode: string, serialOf: string -> Option<Der.Bytes>) returns (r: Result<Der.Bytes, Error>)
    ensures r.Ok? <==> RebuiltMessage(qrCode, serialOf).Some?
    ensures r.Ok? ==> RebuiltMessage(qrCode, serialOf) == Some(r.value)
    ensures Split(qrCode, ';')[0] != VERSION ==> r == Err(NotImplemented)
    ensures r == Err(IndexError) ==> |Split(qrCode, ';')| < 12
  {
    hide Der.Message, Der.Latin1, InstantOfUtcText, ParseInt;
    var qr := Split(qrCode, ';');
    if qr[0] != VERSION { return Err(NotImplemented); }
    if |qr| < 2 { return Err(IndexError); }
    MessageNeedsLatin1(qr, serialOf);
    if Der.Latin1(qr[1]).None? { return Err(ValueError); }
    var clientId := qr[1];
    if |qr| < 3 { return Err(IndexError); }
    if Der.Latin1(qr[2]).None? { return Err(ValueError); }
    var processType := qr[2];
    if |qr| < 4 { return Err(IndexError); }
    var processData := qr[3];
    if |qr| < 5 { return Err(IndexError); }
    var number := ParseInt(qr[4]);
    if number.None? { return Err(ValueError); }
    if |qr| < 6 { return Err(IndexError); }
    var counter := ParseInt(qr[5]);
    if counter.None? { return Err(ValueError); }
    if |qr| < 8 { return Err(IndexError); }
    var logTime := InstantOfUtcText(qr[7]);
    if logTime.None? { return Err(ValueError); }
    if |qr| < 12 { return Err(IndexError); }
    if qr[8] != HASH_ALGORITHM { return Err(NotImplemented); }
    var serial := serialOf(qr[11]);
    if serial.None? { return Err(ValueError); }
    if qr[9] != TIME_FORMAT { return Err(NotImplemented); }
    var content := Der.Content(clientId, processData, processType, number.value, counter.value, logTime.value, serial.value);
    var message := Der.Message(content);
    r := Ok(message.value);
  }

  /** The verifier's answer; `verify` checks a signature against a message under a key, all three as the text
      and the rebuilt message give them. None stands for its errors. */
  function Verdict(qrCode: string, serialOf: string -> Option<Der.Bytes>, verify: (string, string, Der.Bytes) -> bool)
    : Option<bool>
  {
    var qr := Split(qrCode, ';');
    match RebuiltMessage(qrCode, serialOf)
    case Some(message) => Some(verify(qr[11], qr[10], message))
    case None => None
  }

  method Verify(qrCode: string, serialOf: string -> Option<Der.Bytes>, verify: (string, string, Der.Bytes) -> bool)
      returns (r: Result<bool, Error>)
    ensures r.Ok? <==> Verdict(qrCode, serialOf, verify).Some?
    ensures r.Ok? ==> Verdict(qrCode, serialOf, verify) == Some(r.value)
    ensures Split(qrCode, ';')[0] != VERSION ==> r == Err(NotImplemented)
  {
    hide Der.Message, Der.Latin1, InstantOfUtcText, ParseInt;
    var message := RebuildMessage(qrCode, serialOf);
    if message.Err? { return Err(message.error); }
    var qr := Split(qrCode, ';');
    r := Ok(verify(qr[11], qr[10], message.value));
  }

  /** The message exists exactly when its two printable strings can be encoded. */
  lemma MessageNeedsLatin1(qr: seq<string>, serialOf: string -> Option<Der.Bytes>)
    requires |qr| >= 2
    ensures Reads(qr, serialOf).Some? ==>
              (Der.Message(Reads(qr, serialOf).value).Some? <==> Der.Latin1(qr[1]).Some? && Der.Latin1(qr[2]).Some?)
  {
    hide Der.EncodeAll, Der.Items, ParseInt, InstantOfUtcText;
    var name := "FinishTransaction";
    assert forall i :: 0 <= i < |name| ==> name[i] as int < 256;
  }

  // ---- printer and verifier agree ----------------------------------------------------

  function ContentOf(signed: D.SignedFields, serial: Der.Bytes): Der.Content
  {
    Der.Content(signed.clientId, signed.processData, signed.processType, signed.number, signed.counter, signed.logTime,
                serial)
  }

  /** Clock readings the calendar can print, at the offsets the device uses. */
  predicate InRange(g: Signature)
  {
    && g.start.offset == D.START_OFFSET && g.end.offset == D.FINISH_OFFSET
    && 0 <= g.start.instant && g.start.instant + D.START_OFFSET <= LAST
    && 0 <= g.end.instant && g.end.instant + D.FINISH_OFFSET <= LAST
  }

  /** What is stored for a signed order, part by part. */
  lemma StoredParts(row: Row, g: Signature, signature: string, publicKey: string)
    requires InRange(g)
    ensures Stored(row, g, signature, publicKey).Some?
    ensures var o := Stored(row, g, signature, publicKey).value;
            && ';' !in o.start && ';' !in o.end
            && InstantOfUtcText(o.start) == Some(g.start.instant)
            && InstantOfUtcText(o.end) == Some(g.end.instant)
  {
    hide PrintStamp, UtcText, InstantOfUtcText;
    LogTimeSurvives(g.start.instant, g.start.offset);
    LogTimeSurvives(g.end.instant, g.end.offset);
  }

  /** The two parts that come from outside the system. */
  predicate NoSeparator(row: Row) { ';' !in row.processType && ';' !in row.processData }

  lemma PartsArePlain(o: OrderWithTse, number: int, counter: int)
    requires o.transaction == PrintInt(number) && o.signatureNumber == PrintInt(counter)
    requires ';' !in o.processType && ';' !in o.processData && ';' !in o.start && ';' !in o.end
    requires o.hashAlgorithm == HASH_ALGORITHM && o.timeFormat == TIME_FORMAT
    requires ';' !in o.signature && ';' !in o.publicKey
    ensures Split(QrCodeText(o), ';') == Parts(o)
  {
    hide PrintInt, Split, Join;
    PrintIntParses(o.tillId);
    PrintIntParses(number);
    PrintIntParses(counter);
    var parts := Parts(o);
    forall i | 0 <= i < |parts| ensures ';' !in parts[i] {
    }
    SplitJoin(parts, ';');
  }

  /** If no part holds a separator, the verifier reads the content the device signed, with the number of the
      row. */
  lemma PlainIsRead(row: Row, g: Signature, signature: string, publicKey: string, serialOf: string -> Option<Der.Bytes>)
    requires InRange(g) && SigningSafety.Genuine(row, g) && NoSeparator(row)
    requires ';' !in signature && ';' !in publicKey && serialOf(publicKey).Some?
    ensures Stored(row, g, signature, publicKey).Some?
    ensures Reads(Split(QrCodeText(Stored(row, g, signature, publicKey).value), ';'), serialOf)
            == Some(ContentOf(g.signed.(number := g.number), serialOf(publicKey).value))
  {
    hide PrintInt, ParseInt, Split, Join, PrintStamp, UtcText, InstantOfUtcText;
    StoredParts(row, g, signature, publicKey);
    var o := Stored(row, g, signature, publicKey).value;
    PartsArePlain(o, g.number, g.counter);
    PrintIntParses(g.number);
    PrintIntParses(g.counter);
  }

  /** The parts of the text, one by one, if no part holds a separator: the row, the signature's number, counter
      and times, and at their places the device's signature and key. */
  lemma PrintedParts(row: Row, g: Signature, signature: string, publicKey: string)
    requires InRange(g) && NoSeparator(row) && ';' !in signature && ';' !in publicKey
    ensures Stored(row, g, signature, publicKey).Some?
    ensures var qr := Split(QrCodeText(Stored(row, g, signature, publicKey).value), ';');
            && |qr| == 12 && qr[0] == "V0" && ParseInt(qr[1]) == Some(row.till)
            && qr[2] == row.processType && qr[3] == row.processData
            && ParseInt(qr[4]) == Some(g.number) && ParseInt(qr[5]) == Some(g.counter)
            && InstantOfUtcText(qr[6]) == Some(g.start.instant) && InstantOfUtcText(qr[7]) == Some(g.end.instant)
            && qr[8] == "ecdsa-plain-SHA384" && qr[9] == "unixTime" && qr[10] == signature && qr[11] == publicKey
  {
    hide PrintInt, ParseInt, Split, Join, PrintStamp, UtcText, InstantOfUtcText;
    StoredParts(row, g, signature, publicKey);
    PartsArePlain(Stored(row, g, signature, publicKey).value, g.number, g.counter);
    PrintIntParses(row.till);
    PrintIntParses(g.number);
    PrintIntParses(g.counter);
  }

  /** No text whatever is read as a content with a separator in it. */
  lemma ReadIsPlain(qrCode: string, serialOf: string -> Option<Der.Bytes>)
    requires Reads(Split(qrCode, ';'), serialOf).Some?
    ensures var c := Reads(Split(qrCode, ';'), serialOf).value; ';' !in c.processType && ';' !in c.processData
  {
    hide Split, ParseInt, InstantOfUtcText;
    SplitPartsArePlain(qrCode, ';');
  }

  /** The message the verifier rebuilds is the message the device signed, byte for byte, if and only if
      the process type and the process data hold no separator and the device signed the number of the row. */
  lemma VerifierRebuilds(row: Row, g: Signature, signature: string, publicKey: string,
                         serialOf: string -> Option<Der.Bytes>)
    requires InRange(g) && SigningSafety.Genuine(row, g)
    requires ';' !in signature && ';' !in publicKey && serialOf(publicKey).Some?
    requires Der.Message(ContentOf(g.signed, serialOf(publicKey).value)).Some?
    ensures Stored(row, g, signature, publicKey).Some?
    ensures RebuiltMessage(QrCodeText(Stored(row, g, signature, publicKey).value), serialOf)
            == Der.Message(ContentOf(g.signed, serialOf(publicKey).value))
            <==> NoSeparator(row) && g.signed.number == g.number
  {
    hide PrintStamp, UtcText, InstantOfUtcText, Stored, QrCodeText, Reads, Split, Der.Message;
    StoredParts(row, g, signature, publicKey);
    var text := QrCodeText(Stored(row, g, signature, publicKey).value);
    var signed := ContentOf(g.signed, serialOf(publicKey).value);
    if NoSeparator(row) {
      PlainIsRead(row, g, signature, publicKey, serialOf);
      if RebuiltMessage(text, serialOf) == Der.Message(signed) {
        Der.MessageInjective(signed, ContentOf(g.signed.(number := g.number), serialOf(publicKey).value));
      }
    } else if RebuiltMessage(text, serialOf) == Der.Message(signed) {
      var content := Reads(Split(text, ';'), serialOf).value;
      Der.MessageInjective(signed, content);
      ReadIsPlain(text, serialOf);
    }
  }

  /** The verifier accepts the text for this signature under this key. */
  predicate Accepts(qrCode: string, signature: string, publicKey: string, serialOf: string -> Option<Der.Bytes>,
                    verify: (string, string, Der.Bytes) -> bool)
  {
    var qr := Split(qrCode, ';');
    Verdict(qrCode, serialOf, verify) == Some(true) && qr[10] == signature && qr[11] == publicKey
  }

  /** The signature verifies under the key for its own message and for no other. */
  ghost predicate Binds(verify: (string, string, Der.Bytes) -> bool, publicKey: string, signature: string, signed: Der.Bytes)
  {
    forall message :: verify(publicKey, signature, message) <==> message == signed
  }

  /** A receipt is accepted for its signature under its key if and only if process type and process data hold no
      separator and the device signed the number of the row. */
  lemma VerifierAccepts(row: Row, g: Signature, signature: string, publicKey: string,
                        serialOf: string -> Option<Der.Bytes>, verify: (string, string, Der.Bytes) -> bool)
    requires InRange(g) && SigningSafety.Genuine(row, g)
    requires ';' !in signature && ';' !in publicKey && serialOf(publicKey).Some?
    requires Der.Message(ContentOf(g.signed, serialOf(publicKey).value)).Some?
    requires Binds(verify, publicKey, signature, Der.Message(ContentOf(g.signed, serialOf(publicKey).value)).value)
    ensures Stored(row, g, signature, publicKey).Some?
    ensures Accepts(QrCodeText(Stored(row, g, signature, publicKey).value), signature, publicKey, serialOf, verify)
            <==> NoSeparator(row) && g.signed.number == g.number
  {
    VerifierRebuilds(row, g, signature, publicKey, serialOf);
    if NoSeparator(row) {
      PrintedParts(row, g, signature, publicKey);
    }
    hide Stored, QrCodeText, Split, Der.Message, RebuiltMessage, PrintInt, ParseInt, InstantOfUtcText;
  }

  /** From the printed text of a receipt without separators the verifier asks exactly whether the device's
      signature fits, under the device's key, the message of what was signed, with the number of the row. */
  lemma PrintedIsAsked(row: Row, g: Signature, signature: string, publicKey: string,
                       serialOf: string -> Option<Der.Bytes>, verify: (string, string, Der.Bytes) -> bool)
    requires InRange(g) && SigningSafety.Genuine(row, g) && NoSeparator(row)
    requires ';' !in signature && ';' !in publicKey && serialOf(publicKey).Some?
    ensures Stored(row, g, signature, publicKey).Some?
    ensures var text := QrCodeText(Stored(row, g, signature, publicKey).value);
            var message := Der.Message(ContentOf(g.signed.(number := g.number), serialOf(publicKey).value));
            Verdict(text, serialOf, verify)
            == if message.Some? then Some(verify(publicKey, signature, message.value)) else None
  {
    PrintedParts(row, g, signature, publicKey);
    PlainIsRead(row, g, signature, publicKey, serialOf);
    hide Stored, QrCodeText, Split, Der.Message, PrintInt, ParseInt, InstantOfUtcText, Reads;
  }

  /** Over every run of the signing protocol: the receipt of every signed order is accepted if and only if the
      process type and data hold no separator and its device took no start, from any connection, between the
      start and the finish of the order. */
  lemma ReceiptChecks(states: seq<Signing.State>, steps: seq<Signing.Step>, i: nat, order: OrderId, signature: string,
                      publicKey: string, serialOf: string -> Option<Der.Bytes>,
                      verify: (string, string, Der.Bytes) -> bool) returns (a: nat, b: nat)
    requires Signing.Behavior(states, steps) && i <= |steps|
    requires order in states[i].orders && states[i].orders[order].status == Done
    requires ';' !in signature && ';' !in publicKey && serialOf(publicKey).Some?
    ensures states[i].orders[order].signature.Some? && states[i].orders[order].tse.Some?
    ensures states[i].orders[order].tse.value in states[i].wrappers
    ensures var row, g := states[i].orders[order], states[i].orders[order].signature.value;
            var taken := states[i].wrappers[row.tse.value].taken;
            && a < b < |taken| && SigningHistory.IsStart(taken[a], Signing.ClientOf(row.till), g.number, g.start)
            && SigningHistory.IsFinish(taken[b], Signing.ClientOf(row.till), row.processType, row.processData, g)
            && (InRange(g) && Der.Message(ContentOf(g.signed, serialOf(publicKey).value)).Some?
                && Binds(verify, publicKey, signature, Der.Message(ContentOf(g.signed, serialOf(publicKey).value)).value) ==>
                  && Stored(row, g, signature, publicKey).Some?
                  && (Accepts(QrCodeText(Stored(row, g, signature, publicKey).value), signature, publicKey, serialOf, verify)
                      <==> NoSeparator(row) && forall m :: a < m < b ==> !taken[m].reply.Started?))
  {
    SigningSafety.RunLength(states, steps);
    hide *;
    SigningSafety.InvAlways(states, steps, i);
    SigningSafety.DoneIsGenuine(states[i], order);
    a, b := SigningHistory.NumberIsOwn(states, steps, i, order);
    var row, g := states[i].orders[order], states[i].orders[order].signature.value;
    if InRange(g) && Der.Message(ContentOf(g.signed, serialOf(publicKey).value)).Some?
       && Binds(verify, publicKey, signature, Der.Message(ContentOf(g.signed, serialOf(publicKey).value)).value) {
      VerifierAccepts(row, g, signature, publicKey, serialOf, verify);
    }
  }

  /** For the receipts the wrapper itself makes, the condition is one on the event's currency alone. */
  lemma OwnReceiptsCheck(row: Row, items: seq<K.LineItem>, kind: string, currency: string)
    requires kind == "Bar" || kind == "Unbar"
    requires row.processType == "Kassenbeleg-V1"
    requires row.processData
             == K.ProcessData("Beleg", K.RateTotals(items), K.PaymentTexts([K.Payment(K.Total(items), kind, currency)]))
    ensures NoSeparator(row) <==> ';' !in currency
  {
    hide K.RateTotal, K.Total, K.ProcessData, K.PaymentTexts;
    assert ';' !in "Kassenbeleg-V1" && ';' !in "Beleg" && ';' !in kind;
    K.ForeignChar("Beleg", K.RateTotals(items), K.Payment(K.Total(items), kind, currency), ';');
  }
}
