/** The values the sender-pool supervisor works with: a sender's status, its
    record in the `clients` registry, the snapshots it announces, the names it
    derives from an id, and the destination-number check of the dispatcher. */
module Senders {

  datatype Option<+T> = None | Some(value: T)

  /** An opaque token standing for one provider `Client` instance. */
  type Handle = nat

  /** The status strings a sender record can carry; `Removed` is only ever
      announced, never stored. */
  datatype Status =
    | Initializing
    | QrCode
    | Authenticated
    | Ready
    | AuthFailed
    | Disconnected
    | InitError
    | Removed

  /** The literal status string the system stores and announces. */
  function Label(s: Status): string
  {
    match s
    case Initializing => "Inicializando"
    case QrCode => "QR_CODE"
    case Authenticated => "Autenticado"
    case Ready => "Pronto"
    case AuthFailed => "Falha na Autenticação"
    case Disconnected => "Desconectado"
    case InitError => "Erro de Inicialização"
    case Removed => "Removido"
  }

  /** The statuses in which a sender that holds a handle is left alone by a
      create request. */
  predicate IsFunctional(s: Status)
  {
    s == Initializing || s == QrCode || s == Authenticated || s == Ready
  }

  /** One entry of the `clients` registry. `handle` is the provider instance
      (`wwebClient`), `qr` the pending QR payload (null when `None`). */
  datatype Sender = Sender(
    id: nat,
    name: string,
    handle: Option<Handle>,
    status: Status,
    qr: Option<string>,
    sessionDir: string)

  /** What a status announcement carries: the record without its handle. */
  datatype Snapshot = Snapshot(id: nat, name: string, status: Status, qr: Option<string>, sessionDir: string)

  /** One element of the ready list. */
  datatype ReadyInfo = ReadyInfo(id: nat, name: string, status: Status)

  function Snap(c: Sender): (s: Snapshot)
    ensures s.id == c.id && s.name == c.name && s.status == c.status
    ensures s.qr == c.qr && s.sessionDir == c.sessionDir
  {
    Snapshot(c.id, c.name, c.status, c.qr, c.sessionDir)
  }

  function Info(c: Sender): (r: ReadyInfo)
    ensures r.id == c.id && r.name == c.name && r.status == c.status
  {
    ReadyInfo(c.id, c.name, c.status)
  }

  // ---------------------------------------------------------------------
  // Decimal digits: how an id is rendered inside a name or a path, and what
  // the destination-number check accepts.

  predicate IsDigit(c: char)
  {
    '0' <= c <= '9'
  }

  predicate IsDigits(s: string)
  {
    forall i :: 0 <= i < |s| ==> IsDigit(s[i])
  }

  function DigitChar(d: nat): (c: char)
    requires d < 10
    ensures IsDigit(c)
  {
    (('0' as int) + d) as char
  }

  function DigitValue(c: char): (d: nat)
    requires IsDigit(c)
    ensures d < 10 && DigitChar(d) == c
  {
    (c as int - '0' as int) as nat
  }

  /** The decimal rendering of a non-negative integer, as a template literal
      `${id}` produces it (no sign, no leading zero). */
  function DecimalString(n: nat): (s: string)
    ensures 1 <= |s| && IsDigits(s)
    ensures |s| > 1 ==> s[0] != '0'
  {
    if n < 10 then [DigitChar(n)] else DecimalString(n / 10) + [DigitChar(n % 10)]
  }

  /** The number a string of decimal digits denotes. */
  function DigitsValue(s: string): nat
    requires IsDigits(s)
  {
    if s == [] then 0 else 10 * DigitsValue(s[..|s| - 1]) + DigitValue(s[|s| - 1])
  }

  lemma {:induction false} DecimalRoundTrip(n: nat)
    ensures DigitsValue(DecimalString(n)) == n
  {
    var s := DecimalString(n);
    if n >= 10 {
      DecimalRoundTrip(n / 10);
      assert s[..|s| - 1] == DecimalString(n / 10);
    }
  }

  lemma DecimalInjective(a: nat, b: nat)
    ensures DecimalString(a) == DecimalString(b) ==> a == b
  {
    DecimalRoundTrip(a);
    DecimalRoundTrip(b);
  }

  // ---------------------------------------------------------------------
  // Names derived from an id.

  const NamePrefix: string := "WPP_Client_"
  const SessionPrefix: string := "sessions/session-"

  /** The display name `WPP_Client_<id>`. */
  function ClientName(id: nat): string
  {
    NamePrefix + DecimalString(id)
  }

  /** The session directory `sessions/session-<id>`, relative to the
      directory of the manager. */
  function SessionDir(id: nat): string
  {
    SessionPrefix + DecimalString(id)
  }

  /** Distinct ids get distinct display names. */
  lemma ClientNameInjective(a: nat, b: nat)
    ensures ClientName(a) == ClientName(b) ==> a == b
  {
    if ClientName(a) == ClientName(b) {
      assert ClientName(a)[|NamePrefix|..] == DecimalString(a);
      assert ClientName(b)[|NamePrefix|..] == DecimalString(b);
      DecimalInjective(a, b);
    }
  }

  /** Distinct ids get distinct session directories. */
  lemma SessionDirInjective(a: nat, b: nat)
    ensures SessionDir(a) == SessionDir(b) ==> a == b
  {
    if SessionDir(a) == SessionDir(b) {
      assert SessionDir(a)[|SessionPrefix|..] == DecimalString(a);
      assert SessionDir(b)[|SessionPrefix|..] == DecimalString(b);
      DecimalInjective(a, b);
    }
  }

  // ---------------------------------------------------------------------
  // The destination-number check `^\d{6,15}$`.

  /** Six to fifteen ASCII digits and nothing else. */
  predicate IsPhoneNumber(s: string)
  {
    6 <= |s| <= 15 && IsDigits(s)
  }

}
