/** Tokens as the lexer hands them to the parser (compiler/lexer/src/token.rs). */
module Tokens {
  import opened Wrappers
  import opened ScriptNumbers
  import opened Syntax

  datatype TokenKind =
    | ContractWord
    | ParamsWord
    | SpendWord
    | RequireWord
    | LetWord
    | IfWord
    | ElseWord
    | ReturnWord
    | TrueWord
    | FalseWord
    | CovenantWord
    | CovenantIdWord
    | ZkVerifyWord
    | FinalityDepthWord
    | SequencingWord
    | MultisigWord
    | InputWord
    | OutputWord
    | BlockWord
    | TypeWord(ty: TypeName)
    | Identifier(name: string)
    | Numeral(digits: string)
    | Quoted(text: string)
    | Assign
    | EqualEqual
    | Bang
    | BangEqual
    | GreaterSign
    | GreaterEqualSign
    | LessSign
    | LessEqualSign
    | AndAnd
    | OrOr
    | Plus
    | Minus
    | Star
    | Slash
    | Percent
    | Arrow
    | LeftBrace
    | RightBrace
    | LeftParen
    | RightParen
    | LeftBracket
    | RightBracket
    | Comma
    | Colon
    | Semicolon
    | Dot

  datatype Token = Token(kind: TokenKind, span: Span)

  // ---- operators ----

  function Precedence(op: BinaryOp): (p: nat)
    ensures 1 <= p <= 6
  {
    match op
    case Or => 1
    case And => 2
    case Equal => 3
    case NotEqual => 3
    case Greater => 4
    case GreaterEqual => 4
    case Less => 4
    case LessEqual => 4
    case Add => 5
    case Sub => 5
    case Mul => 6
    case Div => 6
    case Mod => 6
  }

  function OperatorOf(kind: TokenKind): Option<BinaryOp> {
    match kind
    case OrOr => Some(BinaryOp.Or)
    case AndAnd => Some(BinaryOp.And)
    case EqualEqual => Some(BinaryOp.Equal)
    case BangEqual => Some(BinaryOp.NotEqual)
    case GreaterSign => Some(BinaryOp.Greater)
    case GreaterEqualSign => Some(BinaryOp.GreaterEqual)
    case LessSign => Some(BinaryOp.Less)
    case LessEqualSign => Some(BinaryOp.LessEqual)
    case Plus => Some(BinaryOp.Add)
    case Minus => Some(BinaryOp.Sub)
    case Star => Some(BinaryOp.Mul)
    case Slash => Some(BinaryOp.Div)
    case Percent => Some(BinaryOp.Mod)
    case _ => None
  }

  /** The token the language writes for an operator. */
  function OperatorToken(op: BinaryOp): (kind: TokenKind)
    ensures OperatorOf(kind) == Some(op)
  {
    match op
    case Or => OrOr
    case And => AndAnd
    case Equal => EqualEqual
    case NotEqual => BangEqual
    case Greater => GreaterSign
    case GreaterEqual => GreaterEqualSign
    case Less => LessSign
    case LessEqual => LessEqualSign
    case Add => Plus
    case Sub => Minus
    case Mul => Star
    case Div => Slash
    case Mod => Percent
  }

  function PrefixToken(uop: UnaryOp): TokenKind { if uop.Not? then Bang else Minus }

  // ---- names ----

  /** Keywords that can stand where a name is expected, with the name they give. */
  function KeywordName(kind: TokenKind): Option<string> {
    match kind
    case CovenantWord => Some("covenant")
    case CovenantIdWord => Some("covenant_id")
    case ZkVerifyWord => Some("zk_verify")
    case FinalityDepthWord => Some("finality_depth")
    case SequencingWord => Some("sequencing")
    case MultisigWord => Some("multisig")
    case InputWord => Some("input")
    case OutputWord => Some("output")
    case BlockWord => Some("block")
    case _ => None
  }

  function NameOf(kind: TokenKind): Option<string> {
    if kind.Identifier? then Some(kind.name) else KeywordName(kind)
  }

  /** The token the language writes for a name. */
  function NameToken(name: string): (kind: TokenKind)
    ensures NameOf(kind) == Some(name)
  {
    if name == "covenant" then CovenantWord
    else if name == "covenant_id" then CovenantIdWord
    else if name == "zk_verify" then ZkVerifyWord
    else if name == "finality_depth" then FinalityDepthWord
    else if name == "sequencing" then SequencingWord
    else if name == "multisig" then MultisigWord
    else if name == "input" then InputWord
    else if name == "output" then OutputWord
    else if name == "block" then BlockWord
    else Identifier(name)
  }

  // ---- numerals ----

  predicate AllDigits(text: string) { forall i :: 0 <= i < |text| ==> '0' <= text[i] <= '9' }

  function DecimalValue(text: string): nat
    requires AllDigits(text)
  {
    if text == "" then 0 else 10 * DecimalValue(text[..|text| - 1]) + (text[|text| - 1] - '0') as nat
  }

  /** Reads a numeral as an unsigned 64-bit number; one leading plus sign is allowed. */
  function ParseU64(text: string): Option<u64> {
    var digits := if text != "" && text[0] == '+' then text[1..] else text;
    if digits == "" || !AllDigits(digits) || DecimalValue(digits) > U64_MAX then None
    else Some(DecimalValue(digits))
  }

  function Decimal(n: nat): (text: string)
    ensures text != "" && AllDigits(text) && DecimalValue(text) == n
  {
    var last := ['0' + (n % 10) as char];
    if n < 10 then
      assert last[..0] == "";
      last
    else
      assert (Decimal(n / 10) + last)[..|Decimal(n / 10)|] == Decimal(n / 10);
      Decimal(n / 10) + last
  }

  /** A number written in decimal, with or without a plus sign, is read back unless it exceeds 64 bits. */
  lemma DecimalParses(n: nat)
    ensures ParseU64(Decimal(n)) == if n <= 0xFFFF_FFFF_FFFF_FFFF then Some(n) else None
    ensures ParseU64("+" + Decimal(n)) == ParseU64(Decimal(n))
  {
    assert Decimal(n)[0] != '+';
    assert ("+" + Decimal(n))[1..] == Decimal(n);
  }
}
