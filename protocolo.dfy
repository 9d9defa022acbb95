// The framed text protocol the robot speaks on its serial port (Robo.cs), as
// pure functions: the reception of one character into the frame buffer, the
// recognition of a command's mnemonic, the parameter grammars of the
// commands, and the formatting of their replies.

module Protocolo {

  // ---------------------------------------------------------------------
  // Characters and serial output

  const Backspace: char := 8 as char

  predicate Digito(c: char) { '0' <= c <= '9' }

  /** Letters and digits, as far as ASCII goes. */
  predicate LetraOuDigito(c: char) { 'A' <= c <= 'Z' || 'a' <= c <= 'z' || Digito(c) }

  function Maiuscula(c: char): (u: char)
    ensures !('a' <= u <= 'z')
  {
    if 'a' <= c <= 'z' then (c as int - 32) as char else c
  }

  /** The line terminator of the serial port. */
  const NovaLinha := "\n\r"

  /** Output written piece by piece: appending b then c appends b + c. */
  lemma Associa(a: seq<string>, b: seq<string>, c: seq<string>)
    ensures a + b + c == a + (b + c)
  {
  }

  function Linha(s: string): string { s + NovaLinha }

  /** A reply: an empty line, then the reply on a line of its own. */
  function Resposta(s: string): seq<string> { [Linha(""), Linha(s)] }

  /** The reply to a command whose parameters were not understood. */
  function Nak(cmd: string): string { "[" + cmd + " NAK]" }

  /** The reply to a command the servo board failed to carry out. */
  function Err(cmd: string): string { "[" + cmd + " ERR]" }

  /** The reply to a command naming a joint that does not exist. */
  const JntNak := "[JNT NAK]"

  /** The reply to a frame that names no command. */
  const CmdNak := "[CMD NAK]"

  // ---------------------------------------------------------------------
  // Frame reception (RecebeCaracteresDoProtocolo)

  /** A buffer that reaches this length is taken as a complete frame. */
  const TamanhoMaximo := 39

  /**
   * The state of reception: the frame buffer, whether a frame is open,
   * whether a complete frame waits to be decoded, and the last letter, digit
   * or bracket received.
   */
  datatype Recepcao = Recepcao(buffer: string, emQuadro: bool, pronto: bool, ultimo: char)

  /** Nothing received yet: '?' stands for "no character". */
  const RecepcaoInicial := Recepcao("", false, false, '?')

  /** A frame ready for decoding: opened by '[', closed by ']' or by reaching the maximum length. */
  predicate QuadroPronto(b: string)
  {
    2 <= |b| && b[0] == '[' && (b[|b| - 1] == ']' || |b| >= TamanhoMaximo)
  }

  /** What reception keeps true from one character to the next. */
  predicate RecepcaoOk(r: Recepcao)
  {
    (r.emQuadro ==> !r.pronto && 1 <= |r.buffer| < TamanhoMaximo && r.buffer[0] == '[')
    && (r.pronto ==> !r.emQuadro && QuadroPronto(r.buffer))
  }

  /** A letter, digit or bracket is taken in upper case; any other character as it is. */
  function Normalizar(c: char): char
  {
    if LetraOuDigito(c) || c == '[' || c == ']' then Maiuscula(c) else c
  }

  /** A character with no role in framing. */
  predicate Comum(c: char)
  {
    c != '[' && c != ']' && c != '?' && c != Backspace
  }

  /** The reception of one character c0. */
  function Receber(r: Recepcao, c0: char): (r': Recepcao)
    requires r.emQuadro ==> |r.buffer| >= 1
    ensures r'.emQuadro ==> |r'.buffer| >= 1
  {
    var c := Normalizar(c0);
    var ultimo := if LetraOuDigito(c0) || c0 == '[' || c0 == ']' then c else r.ultimo;
    if !r.emQuadro && c == '[' then Recepcao("[", true, r.pronto, ultimo)
    else if r.emQuadro && c != '?' then
      if c == Backspace then
        var b := r.buffer[..|r.buffer| - 1];
        Recepcao(b, |b| != 0, r.pronto, ultimo)
      else if c == ']' then Recepcao(r.buffer + "]", false, true, ultimo)
      else if c == '[' then Recepcao("[", true, r.pronto, ultimo)
      else
        var b := r.buffer + [c];
        if |b| >= TamanhoMaximo then Recepcao(b, false, true, ultimo)
        else Recepcao(b, true, r.pronto, ultimo)
    else r.(ultimo := ultimo)
  }

  /** What the echo writes for the (normalised) character c; ultimo is the last letter, digit or bracket. */
  function Eco(c: char, ultimo: char): seq<string>
  {
    if c == Backspace then [[c], " ", [c]]
    else if c == '?' then [[ultimo]]
    else [[c]]
  }

  /** '[' (re)starts the buffer, inside a frame or outside one. */
  lemma ReceberAbre(r: Recepcao, c: char)
    requires r.emQuadro ==> |r.buffer| >= 1
    requires Normalizar(c) == '['
    ensures var r' := Receber(r, c); r'.buffer == "[" && r'.emQuadro && r'.pronto == r.pronto
  {
  }

  /** ']' inside a frame appends itself, closes the frame and makes it ready. */
  lemma ReceberFecha(r: Recepcao, c: char)
    requires r.emQuadro && |r.buffer| >= 1 && c == ']'
    ensures var r' := Receber(r, c); r'.buffer == r.buffer + "]" && !r'.emQuadro && r'.pronto
  {
  }

  /**
   * Any other character inside a frame is appended in upper case; the frame
   * is closed and made ready when the buffer reaches 39 characters.
   */
  lemma ReceberAcrescenta(r: Recepcao, c: char)
    requires r.emQuadro && |r.buffer| >= 1 && Comum(c)
    ensures var r' := Receber(r, c);
      r'.buffer == r.buffer + [Normalizar(c)]
      && !('a' <= Normalizar(c) <= 'z')
      && (r'.emQuadro <==> |r.buffer| + 1 < TamanhoMaximo)
      && (r'.pronto <==> r.pronto || |r.buffer| + 1 >= TamanhoMaximo)
  {
    assert Normalizar(c) == '[' ==> c == '[';
    assert Normalizar(c) == ']' ==> c == ']';
  }

  /** A backspace inside a frame removes exactly the last character, closing the frame when the buffer empties. */
  lemma ReceberApaga(r: Recepcao)
    requires r.emQuadro && |r.buffer| >= 1
    ensures var r' := Receber(r, Backspace);
      r'.buffer == r.buffer[..|r.buffer| - 1]
      && (r'.emQuadro <==> |r.buffer| > 1) && r'.pronto == r.pronto
  {
  }

  /** '?' is never buffered: it leaves the buffer and the frame state alone. */
  lemma ReceberInterrogacao(r: Recepcao)
    requires r.emQuadro ==> |r.buffer| >= 1
    ensures var r' := Receber(r, '?');
      r'.buffer == r.buffer && r'.emQuadro == r.emQuadro && r'.pronto == r.pronto
  {
  }

  /** Outside a frame every character but '[' is ignored. */
  lemma ReceberForaDoQuadro(r: Recepcao, c: char)
    requires !r.emQuadro && Normalizar(c) != '['
    ensures var r' := Receber(r, c);
      r'.buffer == r.buffer && !r'.emQuadro && r'.pronto == r.pronto
  {
  }

  /** Reception keeps its invariant while no complete frame waits to be decoded. */
  lemma ReceberPreserva(r: Recepcao, c: char)
    requires RecepcaoOk(r) && !r.pronto
    ensures RecepcaoOk(Receber(r, c))
  {
  }

  /** The reception of the characters of s, in order. */
  function ReceberTodos(r: Recepcao, s: string): (r': Recepcao)
    requires r.emQuadro ==> |r.buffer| >= 1
    ensures r'.emQuadro ==> |r'.buffer| >= 1
    decreases |s|
  {
    if s == [] then r else ReceberTodos(Receber(r, s[0]), s[1..])
  }

  function Normalizados(s: string): (n: string)
    ensures |n| == |s|
  {
    if s == [] then [] else [Normalizar(s[0])] + Normalizados(s[1..])
  }

  /** The body of an open frame is buffered character by character, in upper case. */
  lemma {:induction false} CorpoRecebido(r: Recepcao, s: string)
    requires r.emQuadro && 1 <= |r.buffer| && |r.buffer| + |s| < TamanhoMaximo
    requires forall i :: 0 <= i < |s| ==> Comum(s[i])
    ensures var r' := ReceberTodos(r, s);
      r'.buffer == r.buffer + Normalizados(s) && r'.emQuadro && r'.pronto == r.pronto
    decreases |s|
  {
    if s != [] {
      var r1 := PassoDoCorpo(r, s[0]);
      var t := s[1..];
      assert forall i :: 0 <= i < |t| ==> Comum(t[i]) by {
        forall i | 0 <= i < |t| ensures Comum(t[i]) { assert t[i] == s[i + 1]; }
      }
      assert ReceberTodos(r, s) == ReceberTodos(r1, t);
      CorpoRecebido(r1, t);
      assert Normalizados(s) == [Normalizar(s[0])] + Normalizados(t);
      assert r1.buffer + Normalizados(t) == r.buffer + Normalizados(s);
    }
  }

  /** One ordinary character of a frame's body, short of the maximum length. */
  lemma PassoDoCorpo(r: Recepcao, c: char) returns (r1: Recepcao)
    requires r.emQuadro && 1 <= |r.buffer| && |r.buffer| + 1 < TamanhoMaximo && Comum(c)
    ensures r1 == Receber(r, c)
    ensures r1.buffer == r.buffer + [Normalizar(c)] && r1.emQuadro && r1.pronto == r.pronto
  {
    ReceberAcrescenta(r, c);
    r1 := Receber(r, c);
  }

  /**
   * A whole frame "[" + s + "]" received outside a frame, with a body of at
   * most 37 ordinary characters, is ready for decoding as "[" + s + "]" in
   * upper case.
   */
  lemma {:induction false} QuadroRecebido(r: Recepcao, s: string)
    requires !r.emQuadro && |s| <= TamanhoMaximo - 2
    requires forall i :: 0 <= i < |s| ==> Comum(s[i])
    ensures var r' := ReceberTodos(r, "[" + s + "]");
      r'.buffer == "[" + Normalizados(s) + "]" && !r'.emQuadro && r'.pronto
  {
    var r1 := Receber(r, '[');
    assert ("[" + s + "]")[1..] == s + "]";
    assert ReceberTodos(r, "[" + s + "]") == ReceberTodos(r1, s + "]");
    CorpoRecebido(r1, s);
    ReceberTodosConcat(r1, s, "]");
    var r2 := ReceberTodos(r1, s);
    assert ReceberTodos(r2, "]") == Receber(r2, ']');
  }

  lemma {:induction false} ReceberTodosConcat(r: Recepcao, s: string, t: string)
    requires r.emQuadro ==> |r.buffer| >= 1
    ensures ReceberTodos(r, s + t) == ReceberTodos(ReceberTodos(r, s), t)
    decreases |s|
  {
    if s != [] {
      assert (s + t)[0] == s[0] && (s + t)[1..] == s[1..] + t;
      ReceberTodosConcat(Receber(r, s[0]), s[1..], t);
    } else {
      assert s + t == t;
    }
  }

  // ---------------------------------------------------------------------
  // Mnemonics (Comando) and dispatch (DecodificaProtocolo)

  /** The frame b names command c: c follows the opening '[' and b is longer than c. */
  predicate Comando(b: string, c: string)
  {
    |b| >= 2 && |b| > |c| && b[1..|c| + 1] == c
  }

  datatype ComandoProto =
    | CmdNone | CmdLED | CmdGA | CmdGF | CmdCTZ | CmdJST | CmdTMX | CmdTMN | CmdT90
    | CmdTRP | CmdVEL | CmdACL | CmdFRS | CmdCSB | CmdEMM | CmdGTP | CmdGMS | CmdSTT
    | CmdRST | CmdIN1 | CmdIN2 | CmdECH | CmdRPS | CmdDSL | CmdPRT

  /** The mnemonics, in the order the decoder tries them, and their commands. */
  const Mnemonicos: seq<string> :=
    ["LED", "PRT", "GA", "GF", "CTZ", "JST", "RPS", "DSL", "TMX", "TMN", "T90",
     "TRP", "VEL", "ACL", "FRS", "CSB", "EMM", "GTP", "GMS", "STT", "RST", "ECH"]
  const Comandos: seq<ComandoProto> :=
    [CmdLED, CmdPRT, CmdGA, CmdGF, CmdCTZ, CmdJST, CmdRPS, CmdDSL, CmdTMX, CmdTMN, CmdT90,
     CmdTRP, CmdVEL, CmdACL, CmdFRS, CmdCSB, CmdEMM, CmdGTP, CmdGMS, CmdSTT, CmdRST, CmdECH]

  /** The first mnemonic from index i on that frame b names, or |Mnemonicos| when none does. */
  function PrimeiroComando(b: string, i: nat): (k: nat)
    requires i <= |Mnemonicos|
    ensures i <= k <= |Mnemonicos|
    ensures k < |Mnemonicos| ==> Comando(b, Mnemonicos[k])
    ensures forall j :: i <= j < k ==> !Comando(b, Mnemonicos[j])
    decreases |Mnemonicos| - i
  {
    if i == |Mnemonicos| then i
    else if Comando(b, Mnemonicos[i]) then i
    else PrimeiroComando(b, i + 1)
  }

  /** The command the decoder runs for frame b: the first mnemonic it names, CmdNone if none. */
  function Despacho(b: string): (c: ComandoProto)
    ensures c == CmdNone <==> forall j :: 0 <= j < |Mnemonicos| ==> !Comando(b, Mnemonicos[j])
    ensures c != CmdNone ==> exists j :: 0 <= j < |Mnemonicos| && Comando(b, Mnemonicos[j]) && Comandos[j] == c
  {
    var k := PrimeiroComando(b, 0);
    if k < |Mnemonicos| then Comandos[k] else CmdNone
  }

  predicate Prefixo(a: string, b: string) { |a| <= |b| && b[..|a|] == a }

  /** No mnemonic is a prefix of another, so no mnemonic hides a later one. */
  lemma TabelaSemPrefixos(k: nat)
    requires k < |Mnemonicos|
    ensures forall j :: 0 <= j < |Mnemonicos| && j != k ==> !Prefixo(Mnemonicos[k], Mnemonicos[j])
  {
    var m := Mnemonicos[k];
    forall j | 0 <= j < |Mnemonicos| && j != k
      ensures !Prefixo(m, Mnemonicos[j])
    {
      var n := Mnemonicos[j];
      if |m| <= |n| {
        assert n[..|m|] != m by {
          if |m| == 3 {
            assert n[..3] == n;
            assert m[0] != n[0] || m[1] != n[1] || m[2] != n[2];
          } else {
            assert m[0] != n[0] || m[1] != n[1];
          }
        }
      }
    }
  }

  /** A frame naming one mnemonic names no other. */
  lemma SemSombra(j: nat, k: nat, resto: string)
    requires j < |Mnemonicos| && k < |Mnemonicos| && k != j && |resto| >= 1
    ensures !Comando("[" + Mnemonicos[j] + resto, Mnemonicos[k])
  {
    var b := "[" + Mnemonicos[j] + resto;
    var m, mk := Mnemonicos[j], Mnemonicos[k];
    if Comando(b, mk) {
      if |mk| <= |m| {
        assert m[..|mk|] == b[1..|mk| + 1];
        TabelaSemPrefixos(k);
      } else {
        assert mk[..|m|] == b[1..|m| + 1];
        TabelaSemPrefixos(j);
      }
    }
  }

  /** A frame "[" + m + resto naming mnemonic m runs m's command, whatever resto holds. */
  lemma DespachoReconhece(j: nat, resto: string)
    requires j < |Mnemonicos| && |resto| >= 1
    ensures Despacho("[" + Mnemonicos[j] + resto) == Comandos[j]
  {
    var b := "[" + Mnemonicos[j] + resto;
    assert b[1..|Mnemonicos[j]| + 1] == Mnemonicos[j];
    var k := PrimeiroComando(b, 0);
    if k != j {
      SemSombra(j, k, resto);
    }
  }

  /** The mnemonic of a command, as its replies and the in-flight record spell it. */
  function MnemonicoDe(c: ComandoProto): string
  {
    match c
    case CmdNone => "" case CmdLED => "LED" case CmdGA => "GA" case CmdGF => "GF" case CmdCTZ => "CTZ"
    case CmdJST => "JST" case CmdTMX => "TMX" case CmdTMN => "TMN" case CmdT90 => "T90" case CmdTRP => "TRP"
    case CmdVEL => "VEL" case CmdACL => "ACL" case CmdFRS => "FRS" case CmdCSB => "CSB" case CmdEMM => "EMM"
    case CmdGTP => "GTP" case CmdGMS => "GMS" case CmdSTT => "STT" case CmdRST => "RST" case CmdIN1 => "IN1"
    case CmdIN2 => "IN2" case CmdECH => "ECH" case CmdRPS => "RPS" case CmdDSL => "DSL" case CmdPRT => "PRT"
  }

  /**
   * A ready frame naming mnemonic m, holding at least one character after
   * it, which is the closing ']' when it is the only one.
   */
  predicate QuadroDoComando(b: string, m: string)
  {
    QuadroPronto(b) && Comando(b, m) && |b| >= |m| + 2 && (|b| == |m| + 2 ==> b[|m| + 1] == ']')
  }

  /** Every ready frame the decoder dispatches is a frame of its command's mnemonic. */
  lemma QuadroDespachado(b: string)
    requires QuadroPronto(b) && Despacho(b) != CmdNone
    ensures QuadroDoComando(b, MnemonicoDe(Despacho(b)))
  {
    var k := PrimeiroComando(b, 0);
    TabelaDeMnemonicos(k);
  }

  /** Entry k of the table spells its command's mnemonic, one to three letters or digits. */
  lemma TabelaDeMnemonicos(k: nat)
    requires k < |Mnemonicos|
    ensures MnemonicoDe(Comandos[k]) == Mnemonicos[k]
    ensures 1 <= |Mnemonicos[k]| <= 3 && Mnemonicos[k][|Mnemonicos[k]| - 1] != ']'
    ensures Comandos[k] != CmdNone && Comandos[k] != CmdIN1 && Comandos[k] != CmdIN2
  {
    if k < 11 {
      if k < 5 {
      } else {
      }
    } else {
      if k < 16 {
      } else {
      }
    }
  }

  /** IN1 and IN2 are raised by the start-up sequence only: no frame dispatches to them. */
  lemma DespachoSemRepouso(b: string)
    ensures Despacho(b) != CmdIN1 && Despacho(b) != CmdIN2
  {
    var k := PrimeiroComando(b, 0);
    if k < |Mnemonicos| {
      TabelaDeMnemonicos(k);
    }
  }

  // ---------------------------------------------------------------------
  // Numbers in replies (ToString("0000"), ToString("X4"))

  function DigitoChar(d: int): char
    requires 0 <= d < 10
  {
    ('0' as int + d) as char
  }

  /** The decimal digits of n, most significant first, without leading zeros. */
  function Decimal(n: nat): (s: string)
    ensures 1 <= |s|
    ensures forall i :: 0 <= i < |s| ==> Digito(s[i])
    decreases n
  {
    if n < 10 then [DigitoChar(n)] else Decimal(n / 10) + [DigitoChar(n % 10)]
  }

  /** The value of a string of decimal digits. */
  function ValorDecimal(s: string): int
    requires forall i :: 0 <= i < |s| ==> Digito(s[i])
    decreases |s|
  {
    if s == [] then 0 else ValorDecimal(s[..|s| - 1]) * 10 + (s[|s| - 1] as int - '0' as int)
  }

  function Zeros(k: nat): (z: string)
    ensures |z| == k && forall i :: 0 <= i < k ==> z[i] == '0'
  {
    seq(k, i => '0')
  }

  /** ToString("0000"): the decimal digits, padded with zeros to at least four, after a minus sign for a negative. */
  function Formata0000(n: int): string
  {
    var d := Decimal(if n < 0 then -n else n);
    var p := if |d| >= 4 then d else Zeros(4 - |d|) + d;
    if n < 0 then "-" + p else p
  }

  /** A real printed with ToString("0000"): rounded to the nearest integer, halves away from zero. */
  function Arredonda(x: real): int
  {
    if x >= 0.0 then (x + 0.5).Floor else -((-x + 0.5).Floor)
  }

  function FormataReal(x: real): string { Formata0000(Arredonda(x)) }

  /** Whether b holds four digits from index k on. */
  predicate Digitos4(b: string, k: nat)
    requires k + 4 <= |b|
  {
    Digito(b[k]) && Digito(b[k + 1]) && Digito(b[k + 2]) && Digito(b[k + 3])
  }

  /** The value of the four digits at b[k..k+4], as the decoder computes it. */
  function Valor4(b: string, k: nat): int
    requires k + 4 <= |b|
  {
    1000 * (b[k] as int - '0' as int) + 100 * (b[k + 1] as int - '0' as int)
    + 10 * (b[k + 2] as int - '0' as int) + (b[k + 3] as int - '0' as int)
  }

  lemma {:induction false} DecimalIdaEVolta(n: nat)
    ensures ValorDecimal(Decimal(n)) == n
    decreases n
  {
    if n >= 10 {
      var d := Decimal(n / 10);
      DecimalIdaEVolta(n / 10);
      assert (d + [DigitoChar(n % 10)])[..|d|] == d;
    }
  }

  lemma {:induction false} ZerosAEsquerda(k: nat, s: string)
    requires forall i :: 0 <= i < |s| ==> Digito(s[i])
    ensures var z := Zeros(k) + s; (forall i :: 0 <= i < |z| ==> Digito(z[i])) && ValorDecimal(z) == ValorDecimal(s)
    decreases k + |s|
  {
    var z := Zeros(k) + s;
    if s == [] {
      assert z == Zeros(k);
      if k > 0 {
        assert z[..k - 1] == Zeros(k - 1);
        ZerosAEsquerda(k - 1, []);
        assert Zeros(k - 1) + [] == Zeros(k - 1);
      }
    } else {
      var s1 := s[..|s| - 1];
      assert z[..|z| - 1] == Zeros(k) + s1;
      ZerosAEsquerda(k, s1);
    }
  }

  lemma {:induction false} DecimalCurto(n: nat)
    requires n < 10000
    ensures |Decimal(n)| <= 4
  {
    if n >= 10 {
      if n >= 100 {
        if n >= 1000 {
          assert |Decimal(n / 1000)| == 1;
          assert |Decimal(n / 100)| == 2;
        }
        assert |Decimal(n / 100)| <= 2;
        assert |Decimal(n / 10)| <= 3;
      }
    }
  }

  lemma Valor4Decimal(s: string)
    requires |s| == 4 && forall i :: 0 <= i < 4 ==> Digito(s[i])
    ensures Valor4(s, 0) == ValorDecimal(s)
  {
    var s3, s2, s1 := s[..3], s[..2], s[..1];
    assert s3[..2] == s2 && s2[..1] == s1 && s1[..0] == [];
    assert ValorDecimal(s1) == s[0] as int - '0' as int;
    assert ValorDecimal(s2) == ValorDecimal(s1) * 10 + (s[1] as int - '0' as int);
    assert ValorDecimal(s3) == ValorDecimal(s2) * 10 + (s[2] as int - '0' as int);
  }

  /** Formatting an integer in 0..9999 gives four digits from which the decoder reads the integer back. */
  lemma {:induction false} FormataLe(n: int)
    requires 0 <= n <= 9999
    ensures var f := Formata0000(n); |f| == 4 && Digitos4(f, 0) && Valor4(f, 0) == n
  {
    var d := Decimal(n);
    DecimalCurto(n);
    DecimalIdaEVolta(n);
    ZerosAEsquerda(4 - |d|, d);
    var f := Formata0000(n);
    assert f == Zeros(4 - |d|) + d;
    Valor4Decimal(f);
  }

  /** ToString("X4"): four upper-case hexadecimal digits. */
  function Hex4(n: int): (h: string)
    requires 0 <= n < 0x1_0000
    ensures |h| == 4
  {
    var digitos := "0123456789ABCDEF";
    [digitos[n / 0x1000], digitos[n / 0x100 % 16], digitos[n / 0x10 % 16], digitos[n % 16]]
  }

  // ---------------------------------------------------------------------
  // Joint selection and configuration values (ConfigParamServo, VALSET)

  /** A frame long enough for its joint to be read: J and G are followed by one more character. */
  predicate QuadroSelecionavel(b: string)
  {
    5 <= |b| && b[0] == '[' && (b[4] == 'J' || b[4] == 'G' ==> 6 <= |b|)
  }

  /** Every ready frame of a three-letter mnemonic has its joint where Selecionar reads it. */
  lemma SelecionavelDoComando(b: string, m: string)
    requires QuadroDoComando(b, m) && |m| == 3 && forall i :: 0 <= i < 3 ==> m[i] != ']'
    ensures QuadroSelecionavel(b)
  {
    if |b| == 5 {
      assert b[4] == ']';
    }
  }

  /** The servo a command's parameter names: J0..J4 are the joints, GR the gripper (servo 5). */
  datatype Selecao = Junta(indice: int) | JuntaInvalida | SemJunta

  function Selecionar(b: string): (s: Selecao)
    requires 5 <= |b| && (b[4] == 'J' || b[4] == 'G' ==> 6 <= |b|)
    ensures s.Junta? ==> 0 <= s.indice < 6
  {
    if b[4] == 'J' then
      (if '0' <= b[5] <= '4' then Junta(b[5] as int - '0' as int) else JuntaInvalida)
    else if b[4] == 'G' && b[5] == 'R' then Junta(5)
    else SemJunta
  }

  /**
   * The outcome of VALSET: a NAK, or the value the field holds afterwards
   * and the frame rewritten to carry it (the reply).
   */
  datatype Valset = ValsetNak | ValsetOk(valor: int, quadro: string)

  /** The frame b with its four value digits replaced by those of v. */
  function Regravar(b: string, v: int): (q: string)
    requires 6 <= |b| && b[0] == '['
    ensures |q| == 11 && q[..6] == b[..6] && q[10] == ']'
    ensures q[6..10] == Formata0000(v)[..4]
  {
    var f := Formata0000(v);
    DecimalNaoVazio(v);
    var q := "[" + b[1..6] + f[..4] + "]";
    assert q[..6] == b[..6] by {
      forall i | 0 <= i < 6 ensures q[i] == b[i] { if i > 0 { assert q[i] == b[1..6][i - 1]; } }
    }
    q
  }

  lemma DecimalNaoVazio(v: int)
    ensures |Formata0000(v)| >= 4
  {
  }

  /**
   * VALSET on frame b for a field holding atual: an 11-character frame with
   * four digits sets the field (0000 is stored as 1), a 7-character frame
   * only reads it, and anything else is refused.
   */
  function ValSet(b: string, atual: int): (r: Valset)
    requires 6 <= |b| && b[0] == '['
    ensures r.ValsetOk? ==> |r.quadro| == 11 && QuadroPronto(r.quadro) && r.quadro[..6] == b[..6]
  {
    if |b| == 11 then
      if Digitos4(b, 6) then
        var v := Valor4(b, 6);
        var v' := if v == 0 then 1 else v;
        ValsetOk(v', Regravar(b, v'))
      else ValsetNak
    else if |b| == 7 then ValsetOk(atual, Regravar(b, atual))
    else ValsetNak
  }

  /**
   * A set frame is accepted exactly when it carries four digits; the value
   * stored is those digits (1 for 0000), and the reply carries that value's
   * four digits.
   */
  lemma ValsetDefine(b: string, atual: int)
    requires |b| == 11 && b[0] == '['
    ensures ValSet(b, atual).ValsetOk? <==> Digitos4(b, 6)
    ensures Digitos4(b, 6) ==>
      var r := ValSet(b, atual);
      r.valor == (if Valor4(b, 6) == 0 then 1 else Valor4(b, 6))
      && 1 <= r.valor <= 9999 && Digitos4(r.quadro, 6) && Valor4(r.quadro, 6) == r.valor
  {
    if Digitos4(b, 6) {
      var r := ValSet(b, atual);
      FormataLe(r.valor);
      var f := Formata0000(r.valor);
      assert r.quadro[6..10] == f[..4] == f;
    }
  }

  /** A set followed by a query of the same field returns the same frame, hence the same four digits. */
  lemma ValsetIdaEVolta(b: string, atual: int)
    requires |b| == 11 && b[0] == '[' && ValSet(b, atual).ValsetOk?
    ensures var v := ValSet(b, atual).valor;
      ValSet(b[..6] + "]", v) == ValsetOk(v, ValSet(b, atual).quadro)
  {
    var c := b[..6] + "]";
    assert c[1..6] == b[1..6];
  }

  /** Only 7- and 11-character frames are understood; a refused frame changes nothing. */
  lemma ValsetRecusa(b: string, atual: int)
    requires 6 <= |b| && b[0] == '['
    ensures ValSet(b, atual).ValsetNak? <==> (|b| != 7 && (|b| != 11 || !Digitos4(b, 6)))
  {
  }

  /** The one-digit option of FRS, CSB and ECH: the character minus '0', as a byte. */
  function Opcao(c: char): int
  {
    (c as int - '0' as int) % 256
  }

  // ---------------------------------------------------------------------
  // JST

  /** A JST frame's length: [JST], [JST<J>], or up to six groups <J><4 digits>. */
  predicate ComprimentoJst(n: int)
  {
    !(n > 35 || n < 5 || (n % 5 != 0 && n != 6))
  }

  /** The pulse time JST stores: a non-zero value clamped into [min, max] (max first), zero kept. */
  function LimitarJst(v: int, min: int, max: int): (t: int)
    ensures v == 0 ==> t == 0
    ensures v != 0 && min <= max ==> min <= t <= max
    ensures v != 0 && min <= v <= max ==> t == v
  {
    if v == 0 then 0
    else
      var a := if v > max then max else v;
      if a < min then min else a
  }

  /** The servo named by a JST letter: A..E are joints 0..4, G the gripper. */
  function ServoJst(l: char): (i: int)
    ensures 'A' <= l <= 'E' ==> 0 <= i < 5
    ensures l == 'G' ==> i == 5
    ensures !('A' <= l <= 'E' || l == 'G') ==> i == -1
  {
    if 'A' <= l <= 'E' then l as int - 'A' as int else if l == 'G' then 5 else -1
  }

  /**
   * The result of the groups of a JST set frame: the six target pulse times,
   * the group counter when the loop stops (7 after a refused group) and the
   * lowest joint channel named.
   */
  datatype Jst = Jst(alvos: seq<real>, i: int, primeiro: int)

  predicate FrameJstAjuste(b: string)
  {
    10 <= |b| <= 35 && |b| % 5 == 0
  }

  /**
   * The groups of JST set frame b from group i on, with the six servos'
   * target pulse times alvos and limits mins, maxs. Each group is a servo
   * letter and four digits; a group with a bad letter or bad digits stops
   * the loop with the groups before it already applied.
   */
  function AplicarJst(b: string, alvos: seq<real>, mins: seq<int>, maxs: seq<int>, i: int, primeiro: int): (r: Jst)
    requires FrameJstAjuste(b) && |alvos| == 6 && |mins| == 6 && |maxs| == 6 && 0 <= i <= 6
    ensures |r.alvos| == 6 && i <= r.i <= 7
    decreases 6 - i
  {
    if !(i < 6 && 4 + 5 * i < |b| - 1) then Jst(alvos, i, primeiro)
    else
      var k := ServoJst(b[4 + 5 * i]);
      if k < 0 then Jst(alvos, 7, primeiro)
      else
        var p := if k < 5 && primeiro > k then k else primeiro;
        if Digitos4(b, 5 + 5 * i) then
          var v := LimitarJst(Valor4(b, 5 + 5 * i), mins[k], maxs[k]);
          AplicarJst(b, alvos[k := v as real], mins, maxs, i + 1, p)
        else Jst(alvos, 7, p)
  }

  /**
   * Every target pulse time a JST frame leaves is the one before it, zero,
   * or inside that servo's [min, max].
   */
  lemma {:induction false} JstLimita(b: string, alvos: seq<real>, mins: seq<int>, maxs: seq<int>, i: int, primeiro: int)
    requires FrameJstAjuste(b) && |alvos| == 6 && |mins| == 6 && |maxs| == 6 && 0 <= i <= 6
    requires forall k :: 0 <= k < 6 ==> mins[k] <= maxs[k]
    ensures var r := AplicarJst(b, alvos, mins, maxs, i, primeiro);
      forall k :: 0 <= k < 6 ==>
        r.alvos[k] == alvos[k] || r.alvos[k] == 0.0 || mins[k] as real <= r.alvos[k] <= maxs[k] as real
    decreases 6 - i
  {
    if i < 6 && 4 + 5 * i < |b| - 1 {
      var k := ServoJst(b[4 + 5 * i]);
      if k >= 0 && Digitos4(b, 5 + 5 * i) {
        var v := LimitarJst(Valor4(b, 5 + 5 * i), mins[k], maxs[k]);
        var p := if k < 5 && primeiro > k then k else primeiro;
        var a1 := alvos[k := v as real];
        JstLimita(b, a1, mins, maxs, i + 1, p);
        var r := AplicarJst(b, alvos, mins, maxs, i, primeiro);
        forall j | 0 <= j < 6
          ensures r.alvos[j] == alvos[j] || r.alvos[j] == 0.0 || mins[j] as real <= r.alvos[j] <= maxs[j] as real
        {
          if r.alvos[j] == a1[j] && j == k {
            assert v == 0 || mins[k] <= v <= maxs[k];
          }
        }
      }
    }
  }

  /** One group of a JST set frame: group i lies inside the frame, and AplicarJst applies it and goes on. */
  lemma JstPasso(b: string, alvos: seq<real>, mins: seq<int>, maxs: seq<int>, i: int, primeiro: int)
    requires FrameJstAjuste(b) && |alvos| == 6 && |mins| == 6 && |maxs| == 6 && 0 <= i < 6 && 4 + 5 * i < |b| - 1
    ensures 9 + 5 * i <= |b|
    ensures var k := ServoJst(b[4 + 5 * i]);
      var p := if 0 <= k < 5 && primeiro > k then k else primeiro;
      var r := AplicarJst(b, alvos, mins, maxs, i, primeiro);
      (k < 0 ==> r == Jst(alvos, 7, primeiro))
      && (k >= 0 && !Digitos4(b, 5 + 5 * i) ==> r == Jst(alvos, 7, p))
      && (k >= 0 && Digitos4(b, 5 + 5 * i) ==>
            r == AplicarJst(b, alvos[k := LimitarJst(Valor4(b, 5 + 5 * i), mins[k], maxs[k]) as real], mins, maxs, i + 1, p))
  {
    assert |b| == 5 * (|b| / 5);
  }

  /**
   * The groups only set servos from the lowest joint they name on (the
   * gripper, 5, when they name none), so the servos below it keep their
   * target pulse times; the lowest joint never rises.
   */
  lemma {:induction false} JstAbaixoDoPrimeiro(b: string, alvos: seq<real>, mins: seq<int>, maxs: seq<int>, i: int, primeiro: int)
    requires FrameJstAjuste(b) && |alvos| == 6 && |mins| == 6 && |maxs| == 6 && 0 <= i <= 6 && 0 <= primeiro <= 5
    ensures var r := AplicarJst(b, alvos, mins, maxs, i, primeiro);
      0 <= r.primeiro <= primeiro && forall j :: 0 <= j < r.primeiro ==> r.alvos[j] == alvos[j]
    decreases 6 - i
  {
    if i < 6 && 4 + 5 * i < |b| - 1 {
      var k := ServoJst(b[4 + 5 * i]);
      if k >= 0 && Digitos4(b, 5 + 5 * i) {
        var v := LimitarJst(Valor4(b, 5 + 5 * i), mins[k], maxs[k]);
        var p := if k < 5 && primeiro > k then k else primeiro;
        JstAbaixoDoPrimeiro(b, alvos[k := v as real], mins, maxs, i + 1, p);
      }
    }
  }

  /**
   * A JST frame whose first group is good and whose second group is bad is
   * refused, yet the first group's servo keeps its new pulse time.
   */
  lemma JstParcial(b: string, alvos: seq<real>, mins: seq<int>, maxs: seq<int>)
    requires FrameJstAjuste(b) && 15 <= |b| && |alvos| == 6 && |mins| == 6 && |maxs| == 6
    requires ServoJst(b[4]) >= 0 && Digitos4(b, 5)
    requires ServoJst(b[9]) < 0 || !Digitos4(b, 10)
    ensures var k := ServoJst(b[4]);
      var r := AplicarJst(b, alvos, mins, maxs, 0, 5);
      r.i == 7 && r.alvos == alvos[k := LimitarJst(Valor4(b, 5), mins[k], maxs[k]) as real]
  {
  }

  /** A frame with one good group sets that servo's pulse time, clamped, and is accepted. */
  lemma JstUmGrupo(b: string, alvos: seq<real>, mins: seq<int>, maxs: seq<int>)
    requires |b| == 10 && |alvos| == 6 && |mins| == 6 && |maxs| == 6
    requires ServoJst(b[4]) >= 0 && Digitos4(b, 5)
    ensures var k := ServoJst(b[4]);
      var r := AplicarJst(b, alvos, mins, maxs, 0, 5);
      r.i == 1 && r.alvos == alvos[k := LimitarJst(Valor4(b, 5), mins[k], maxs[k]) as real]
      && r.primeiro == (if k < 5 then k else 5)
  {
  }

  // ---------------------------------------------------------------------
  // LED

  /** The eight LEDs a 13-character LED frame sets: LED 7-i from character 4+i, lit only by '1'. */
  function LedsDoQuadro(b: string): (leds: seq<bool>)
    requires |b| == 13
    ensures |leds| == 8 && forall j :: 0 <= j < 8 ==> leds[j] == (b[11 - j] == '1')
  {
    seq(8, j requires 0 <= j < 8 => b[11 - j] == '1')
  }

  /** The reply to [LED]: the eight LEDs, LED 7 first, as '1' and '0'. */
  function QuadroDosLeds(leds: seq<bool>): (q: string)
    requires |leds| == 8
    ensures |q| == 13 && q[..4] == "[LED" && q[12] == ']'
    ensures forall i :: 4 <= i < 12 ==> q[i] == (if leds[11 - i] then '1' else '0')
  {
    "[LED" + seq(8, i requires 0 <= i < 8 => if leds[7 - i] then '1' else '0') + "]"
  }

  /**
   * A query after a set returns the set frame with every character other
   * than '1' read as '0': the same frame when it held only '0' and '1'.
   */
  lemma LedIdaEVolta(b: string)
    requires |b| == 13 && b[..4] == "[LED" && b[12] == ']'
    ensures var q := QuadroDosLeds(LedsDoQuadro(b));
      forall i :: 4 <= i < 12 ==> q[i] == (if b[i] == '1' then '1' else '0')
    ensures (forall i :: 4 <= i < 12 ==> b[i] == '0' || b[i] == '1') ==> QuadroDosLeds(LedsDoQuadro(b)) == b
  {
    var q := QuadroDosLeds(LedsDoQuadro(b));
    if forall i :: 4 <= i < 12 ==> b[i] == '0' || b[i] == '1' {
      forall i | 0 <= i < 13 ensures q[i] == b[i] {
        if i < 4 { assert q[i] == q[..4][i]; assert b[i] == b[..4][i]; }
      }
    }
  }
}
