/** Order statuses, the transition table and the status/evidence maps of app/domain/states.py. */
module States {
  import opened Prelude

  datatype OrderStatus =
    | ACCEPTED
    | SUBMITTED
    | PROCESSING
    | RESULT_UNKNOWN
    | SUCCEEDED
    | FAILED
    | EXPIRED
    | CANCELLED
    | PARTIALLY_REVERSED
    | REVERSED

  /** The text stored for a status (a StrEnum prints its value). */
  function StatusName(s: OrderStatus): string {
    match s
    case ACCEPTED => "ACCEPTED"
    case SUBMITTED => "SUBMITTED"
    case PROCESSING => "PROCESSING"
    case RESULT_UNKNOWN => "RESULT_UNKNOWN"
    case SUCCEEDED => "SUCCEEDED"
    case FAILED => "FAILED"
    case EXPIRED => "EXPIRED"
    case CANCELLED => "CANCELLED"
    case PARTIALLY_REVERSED => "PARTIALLY_REVERSED"
    case REVERSED => "REVERSED"
  }

  function Allowed(s: OrderStatus): set<OrderStatus> {
    match s
    case ACCEPTED => {SUBMITTED, RESULT_UNKNOWN, SUCCEEDED, FAILED, CANCELLED, REVERSED}
    case SUBMITTED => {PROCESSING, RESULT_UNKNOWN, SUCCEEDED, FAILED, EXPIRED, REVERSED}
    case PROCESSING => {RESULT_UNKNOWN, SUCCEEDED, FAILED, EXPIRED, REVERSED}
    case RESULT_UNKNOWN => {PROCESSING, SUCCEEDED, FAILED, EXPIRED, REVERSED}
    case SUCCEEDED => {PARTIALLY_REVERSED, REVERSED}
    case PARTIALLY_REVERSED => {REVERSED}
    case FAILED => {}
    case EXPIRED => {}
    case CANCELLED => {}
    case REVERSED => {}
  }

  predicate MayMove(src: OrderStatus, dst: OrderStatus) {
    dst in Allowed(src)
  }

  predicate IsAbsorbing(s: OrderStatus) {
    s in {SUCCEEDED, FAILED, REVERSED, CANCELLED, EXPIRED}
  }

  /** The statuses that finalize an order and are forwarded (app/services/order_finalize.py). */
  predicate IsTerminal(s: OrderStatus) {
    s in {SUCCEEDED, FAILED, REVERSED}
  }

  // ---- text received from wedap -------------------------------------------------------------

  function UpperChar(c: char): char {
    if 'a' <= c <= 'z' then ((c as int) - 32) as char else c
  }

  /** `str.upper` on ASCII text. */
  function Upper(s: string): (r: string)
    ensures |r| == |s|
  {
    seq(|s|, i requires 0 <= i < |s| => UpperChar(s[i]))
  }

  predicate IsSpace(c: char) {
    c in {' ', '\t', '\n', '\r'}
  }

  function StripLeft(s: string): string {
    if s != "" && IsSpace(s[0]) then StripLeft(s[1..]) else s
  }

  function StripRight(s: string): string {
    if s != "" && IsSpace(s[|s| - 1]) then StripRight(s[..|s| - 1]) else s
  }

  /** `str.strip` on ASCII text. */
  function Strip(s: string): string {
    StripRight(StripLeft(s))
  }

  function MapTxnStatus(text: string): Option<OrderStatus> {
    var s := Upper(text);
    if s == "SUCCESS" then Some(SUCCEEDED)
    else if s == "FAILED" then Some(FAILED)
    else if s == "REVERSED" then Some(REVERSED)
    else None
  }

  function MapRepaymentStatus(text: string): Option<OrderStatus> {
    var s := Upper(text);
    if s == "SUCCESS" then Some(SUCCEEDED)
    else if s == "FAILED" then Some(FAILED)
    else None
  }

  const TERMINAL_REJECT_CODES: set<string> := {
    "6605B00900201", "6605B00900202", "6605B00900203", "6605B00900204", "6605B00900205",
    "6605B00900207", "6605B00900208", "6605B00900209", "6605B00900215", "6605B00900216"
  }

  const DOOR_REJECT_HTTP_STATUSES: set<int> := {400, 401, 403, 404, 405, 415, 422}

  predicate IsDoorReject(httpStatus: int) {
    httpStatus in DOOR_REJECT_HTTP_STATUSES
  }

  predicate IsTerminalReject(code: string) {
    code in TERMINAL_REJECT_CODES
  }

  // ---- what these texts are -----------------------------------------------------------------

  /** Letters become capitals, and nothing else changes. */
  lemma UpperReads(s: string, i: nat)
    requires i < |s|
    ensures Upper(s)[i] as int == if 97 <= s[i] as int <= 122 then s[i] as int - 32 else s[i] as int
  {
  }

  predicate Blank(c: char) {
    c == ' ' || c == '\t' || c == '\n' || c == '\r'
  }

  predicate AllBlank(s: string) {
    forall i :: 0 <= i < |s| ==> Blank(s[i])
  }

  /** Strip takes the spaces off both ends, all of them, and nothing else. */
  lemma StripReads(s: string)
    ensures exists lead, tail :: AllBlank(lead) && AllBlank(tail) && s == lead + Strip(s) + tail
    ensures Strip(s) != "" ==> !Blank(Strip(s)[0]) && !Blank(Strip(s)[|Strip(s)| - 1])
  {
    var t := StripLeft(s);
    var lead := StripLeftReads(s);
    var tail := StripRightReads(t);
    assert s == lead + Strip(s) + tail;
    assert Strip(s) != "" ==> Strip(s)[0] == t[0];
  }

  lemma {:induction false} StripLeftReads(s: string) returns (lead: string)
    ensures AllBlank(lead) && s == lead + StripLeft(s)
    ensures StripLeft(s) != "" ==> !Blank(StripLeft(s)[0])
  {
    lead := "";
    if s != "" && IsSpace(s[0]) {
      var rest := StripLeftReads(s[1..]);
      lead := [s[0]] + rest;
      assert s == [s[0]] + s[1..];
    }
  }

  lemma {:induction false} StripRightReads(s: string) returns (tail: string)
    ensures AllBlank(tail) && s == StripRight(s) + tail
    ensures StripRight(s) != "" ==> !Blank(StripRight(s)[|StripRight(s)| - 1])
  {
    tail := "";
    if s != "" && IsSpace(s[|s| - 1]) {
      var rest := StripRightReads(s[..|s| - 1]);
      tail := rest + [s[|s| - 1]];
      assert s == s[..|s| - 1] + [s[|s| - 1]];
    }
  }

  /** A word of wedap stands for a final status exactly in these cases. */
  predicate WordFor(word: string, s: OrderStatus) {
    || (word == "SUCCESS" && s == SUCCEEDED)
    || (word == "FAILED" && s == FAILED)
    || (word == "REVERSED" && s == REVERSED)
  }

  lemma MapTxnStatusReads(text: string, s: OrderStatus)
    ensures MapTxnStatus(text) == Some(s) <==> WordFor(Upper(text), s)
  {
  }

  // ---- paths of the transition table --------------------------------------------------------

  predicate StepAt(p: seq<OrderStatus>, i: nat) {
    i + 1 < |p| && MayMove(p[i], p[i + 1])
  }

  /** `p` starts where every order starts and follows the table. */
  ghost predicate IsPath(p: seq<OrderStatus>) {
    && p != []
    && p[0] == ACCEPTED
    && forall i: nat :: i < |p| - 1 ==> StepAt(p, i)
  }

  /** Progress of a status; PROCESSING and RESULT_UNKNOWN form the table's only cycle. */
  function Rank(s: OrderStatus): nat {
    match s
    case ACCEPTED => 0
    case SUBMITTED => 1
    case PROCESSING => 2
    case RESULT_UNKNOWN => 2
    case SUCCEEDED => 3
    case PARTIALLY_REVERSED => 4
    case _ => 5
  }

  /** A step never loses progress, and stays level only between PROCESSING and RESULT_UNKNOWN. */
  lemma MoveRaisesRank(a: OrderStatus, b: OrderStatus)
    requires MayMove(a, b)
    ensures Rank(a) < Rank(b) || {a, b} == {PROCESSING, RESULT_UNKNOWN}
  {
  }

  lemma {:induction false} PathRankMonotone(p: seq<OrderStatus>, i: nat, j: nat)
    requires IsPath(p)
    requires i <= j < |p|
    ensures Rank(p[i]) <= Rank(p[j])
    decreases j - i
  {
    if i < j {
      assert StepAt(p, j - 1);
      MoveRaisesRank(p[j - 1], p[j]);
      PathRankMonotone(p, i, j - 1);
    }
  }

  /** A path visits a status twice only by going round the PROCESSING/RESULT_UNKNOWN cycle. */
  lemma PathVisitsOnce(p: seq<OrderStatus>, i: nat, j: nat)
    requires IsPath(p)
    requires i < j < |p|
    requires p[i] !in {PROCESSING, RESULT_UNKNOWN} || PROCESSING !in p
    ensures p[i] != p[j]
  {
    assert StepAt(p, i);
    assert p[i] in p && p[i + 1] in p;
    MoveRaisesRank(p[i], p[i + 1]);
    PathRankMonotone(p, i + 1, j);
  }

  /** FAILED and REVERSED end a path; SUCCEEDED is left only towards a reversal. */
  lemma TerminalIsLeftOnlyForReversal(p: seq<OrderStatus>, i: nat)
    requires IsPath(p)
    requires i < |p| - 1
    requires IsTerminal(p[i])
    ensures p[i] == SUCCEEDED
    ensures p[i + 1] in {PARTIALLY_REVERSED, REVERSED}
  {
    assert StepAt(p, i);
  }

  /** ABSORBING_STATUSES are exactly the statuses with no exit except a reversal of SUCCEEDED. */
  lemma AbsorbingExactly(s: OrderStatus)
    ensures IsAbsorbing(s) <==>
            s != PARTIALLY_REVERSED && Allowed(s) <= {PARTIALLY_REVERSED, REVERSED}
  {
    match s {
      case ACCEPTED => assert FAILED in Allowed(s);
      case SUBMITTED => assert FAILED in Allowed(s);
      case PROCESSING => assert FAILED in Allowed(s);
      case RESULT_UNKNOWN => assert FAILED in Allowed(s);
      case _ =>
    }
  }

  /** Status names are told apart by their text, and none contains the key separator. */
  lemma StatusNamesDistinct(a: OrderStatus, b: OrderStatus)
    ensures StatusName(a) == StatusName(b) ==> a == b
    ensures '-' !in StatusName(a)
  {
  }
}
