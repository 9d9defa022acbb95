// Three decisions of the robot's decoder (Robo.cs, DecodificaProtocolo) as
// pure functions, each as the source writes it and as evidently intended:
// the reply to an LED set frame, the action CTZ takes on a frame, and what
// GTP stores and replies when it synchronises a servo with its channel.

module Comandos {
  import opened Perfil
  import opened Protocolo
  import opened Acionamento

  // ---------------------------------------------------------------------
  // LED set frames

  /**
   * The reply to a 13-character LED set frame as written: the loop that
   * sets the LEDs calls Replace on the frame for every character other
   * than '0' and '1', and drops the string Replace returns, so the frame
   * goes back unchanged. Its '1's are still exactly the LEDs switched on.
   */
  function RespostaLedComoEscrita(b: string): (r: string)
    requires |b| == 13 && b[..4] == "[LED" && b[12] == ']'
    ensures |r| == 13 && r[..4] == "[LED" && r[12] == ']'
    ensures forall i :: 4 <= i < 12 ==> (r[i] == '1' <==> LedsDoQuadro(b)[11 - i])
  {
    b
  }

  /**
   * The frame [LED20000000] switches LED 7 off, yet the reply as written
   * reports it as '2' rather than '0'.
   */
  lemma RespostaLedContraExemplo()
    ensures var b := "[LED20000000]";
      b[..4] == "[LED" &&
      !LedsDoQuadro(b)[7] && RespostaLedComoEscrita(b)[4] == '2'
      && RespostaLedComoEscrita(b) != QuadroDosLeds(LedsDoQuadro(b))
  {
    var b := "[LED20000000]";
    assert b[..4] == "[LED";
    assert QuadroDosLeds(LedsDoQuadro(b))[4] == '0';
  }

  /**
   * Corrected, the reply reports the LEDs as set: character 4+i is '1'
   * exactly when the frame's character was '1', and the reply is the frame
   * itself when the frame held only '0' and '1'.
   */
  function RespostaLed(b: string): (r: string)
    requires |b| == 13 && b[..4] == "[LED" && b[12] == ']'
    ensures |r| == 13 && r[..4] == "[LED" && r[12] == ']'
    ensures forall i :: 4 <= i < 12 ==> r[i] == (if b[i] == '1' then '1' else '0')
    ensures (forall i :: 4 <= i < 12 ==> b[i] == '0' || b[i] == '1') ==> r == b
  {
    LedIdaEVolta(b);
    QuadroDosLeds(LedsDoQuadro(b))
  }

  /** The reply as written is the corrected one exactly when the frame holds only '0' and '1'. */
  lemma LedComoEscritaECorrigida(b: string)
    requires |b| == 13 && b[..4] == "[LED" && b[12] == ']'
    ensures RespostaLedComoEscrita(b) == RespostaLed(b) <==> forall i :: 4 <= i < 12 ==> b[i] == '0' || b[i] == '1'
  {
    if exists i :: 4 <= i < 12 && b[i] != '0' && b[i] != '1' {
      var i :| 4 <= i < 12 && b[i] != '0' && b[i] != '1';
      assert RespostaLed(b)[i] == '0';
    }
  }

  // ---------------------------------------------------------------------
  // CTZ

  /** What CTZ does: the replies it sends and the channel it centres, -1 for none. */
  datatype AcaoCtz = AcaoCtz(respostas: seq<string>, canal: int)

  /**
   * CTZ as written: a frame of a length other than 7 gets a NAK, and the
   * decoder then goes on to read the joint from it all the same, so a good
   * joint is centred after the NAK.
   */
  function CtzComoEscrito(b: string): (a: AcaoCtz)
    requires 5 <= |b| && (b[4] == 'J' || b[4] == 'G' ==> 6 <= |b|)
    ensures a.canal >= 0 <==> Selecionar(b).Junta?
    ensures a.canal >= 0 ==> a.canal == Selecionar(b).indice
    ensures |b| != 7 ==> |a.respostas| >= 2 && a.respostas[..2] == Resposta(Nak("CTZ"))
  {
    var nak := if |b| != 7 then Resposta(Nak("CTZ")) else [];
    match Selecionar(b)
    case Junta(k) => AcaoCtz(nak, k)
    case _ => AcaoCtz(nak + Resposta(JntNak), -1)
  }

  /** The frame [CTZJ12] is refused with a NAK and still centres joint 1. */
  lemma CtzContraExemplo()
    ensures CtzComoEscrito("[CTZJ12]") == AcaoCtz(Resposta(Nak("CTZ")), 1)
  {
  }

  /** CTZ corrected: a frame of a length other than 7 gets a NAK and nothing else. */
  function Ctz(b: string): (a: AcaoCtz)
    requires 5 <= |b| && (b[4] == 'J' || b[4] == 'G' ==> 6 <= |b|)
  {
    if |b| != 7 then AcaoCtz(Resposta(Nak("CTZ")), -1)
    else
      match Selecionar(b)
      case Junta(k) => AcaoCtz([], k)
      case _ => AcaoCtz(Resposta(JntNak), -1)
  }

  /**
   * Corrected CTZ centres a servo exactly for a 7-character frame naming a
   * joint or the gripper, and then sends no reply of its own; any other
   * frame gets exactly one refusal and centres nothing. On 7-character
   * frames it agrees with the source.
   */
  lemma CtzRecusaOuMove(b: string)
    requires 5 <= |b| && (b[4] == 'J' || b[4] == 'G' ==> 6 <= |b|)
    ensures var a := Ctz(b);
      (a.canal >= 0 <==> |b| == 7 && Selecionar(b).Junta?)
      && (a.canal >= 0 ==> a.canal == Selecionar(b).indice && a.respostas == [])
      && (a.canal < 0 ==> a.canal == -1 && (a.respostas == Resposta(Nak("CTZ")) || a.respostas == Resposta(JntNak)))
      && (|b| == 7 ==> a == CtzComoEscrito(b))
  {
  }

  // ---------------------------------------------------------------------
  // GTP

  /** The reply to GTP for frame b and channel position p (in 0.25 us): the joint, the position and an S when synchronised. */
  function RespostaGtp(b: string, p: int): string
    requires 7 <= |b|
  {
    "[GTP" + b[4..6] + Formata0000(p) + (if b[6] == 'S' then "S]" else "]")
  }

  /**
   * GTP as written for channel canal: a joint's target pulse is synchronised
   * to its position divided by 4 (in us) and the reply carries the position,
   * but the gripper's is synchronised to the position itself (in 0.25 us)
   * and the reply is the frame received.
   */
  function AlvoSincronizadoComoEscrito(canal: int, p: int): real
  {
    if canal == 5 then p as real else p as real / 4.0
  }

  function RespostaGtpComoEscrita(b: string, canal: int, p: int): string
    requires 7 <= |b|
  {
    if canal == 5 then b else RespostaGtp(b, p)
  }

  /**
   * The gripper at 8000 (2000 us) synchronised by [GTPGRS]: its target
   * becomes 8000 us, which the board would store as 32000, and the reply
   * carries no position.
   */
  lemma GtpGarraContraExemplo()
    ensures Quartos(AlvoSincronizadoComoEscrito(5, 8000)) == 32000
    ensures Quartos(AlvoSincronizadoComoEscrito(0, 8000)) == 8000
    ensures RespostaGtpComoEscrita("[GTPGRS]", 5, 8000) == "[GTPGRS]"
    ensures RespostaGtpComoEscrita("[GTPGRS]", 5, 8000) != RespostaGtp("[GTPGRS]", 8000)
  {
    var r := RespostaGtp("[GTPGRS]", 8000);
    assert |r| == 12 by {
      FormataLe(8000);
    }
  }

  /** Corrected, every servo's target pulse is synchronised to its channel's position in us. */
  function AlvoSincronizado(p: int): real
  {
    p as real / 4.0
  }

  /**
   * A synchronised target sent back to the board commands the very
   * position it was read from, and the reply carries that position as four
   * digits after the joint's name, for positions up to 9999.
   */
  lemma GtpSincroniza(b: string, p: int)
    requires 7 <= |b| && 0 <= p <= 9999
    ensures Quartos(AlvoSincronizado(p)) == p
    ensures var r := RespostaGtp(b, p);
      |r| == (if b[6] == 'S' then 12 else 11) && r[4..6] == b[4..6] && Digitos4(r, 6) && Valor4(r, 6) == p
  {
    FormataLe(p);
    var f := Formata0000(p);
    var r := RespostaGtp(b, p);
    assert r[6..10] == f;
    assert r[4..6] == b[4..6];
  }

  /**
   * What GTP (corrected) does with frame b when the channels stand at
   * positions pos: the reply, the servo it reads and whether it
   * synchronises that servo's target pulse with its channel.
   */
  datatype AcaoGtp = AcaoGtp(resposta: string, canal: int, sincroniza: bool)

  function Gtp(b: string, pos: seq<int>): (a: AcaoGtp)
    requires |pos| == 6
    ensures a.sincroniza ==> 0 <= a.canal < 6
  {
    if |b| < 7 || |b| > 8 || (|b| == 8 && b[6] != 'S') then AcaoGtp(Nak("GTP"), -1, false)
    else
      match Selecionar(b)
      case Junta(k) =>
        if pos[k] == PosicaoInvalida then AcaoGtp(Err("GTP"), k, false)
        else AcaoGtp(RespostaGtp(b, pos[k]), k, b[6] == 'S')
      case _ => AcaoGtp(JntNak, -1, false)
  }

  /**
   * GTP synchronises exactly on an 8-character frame ending in S that names
   * a joint or the gripper whose channel's position can be read (a
   * complete frame has ']' as its seventh character when it has seven); a frame of
   * the wrong shape gets a NAK, a bad joint a JNT NAK, an unreadable
   * position an ERR; otherwise the reply carries the joint, the position as
   * four digits (up to 9999) and an S exactly when it synchronises.
   */
  lemma GtpResponde(b: string, pos: seq<int>)
    requires |pos| == 6
    ensures var a := Gtp(b, pos);
      var forma := 7 <= |b| <= 8 && (|b| == 8 ==> b[6] == 'S');
      (!forma ==> a == AcaoGtp(Nak("GTP"), -1, false))
      && (forma && !Selecionar(b).Junta? ==> a == AcaoGtp(JntNak, -1, false))
      && (forma && Selecionar(b).Junta? ==>
            var k := Selecionar(b).indice;
            a.canal == k
            && (pos[k] == PosicaoInvalida ==> a == AcaoGtp(Err("GTP"), k, false))
            && (pos[k] != PosicaoInvalida ==>
                  (a.sincroniza <==> b[6] == 'S')
                  && (0 <= pos[k] <= 9999 ==>
                        |a.resposta| == (if a.sincroniza then 12 else 11) && a.resposta[4..6] == b[4..6]
                        && Digitos4(a.resposta, 6) && Valor4(a.resposta, 6) == pos[k]
                        && (a.sincroniza ==> Quartos(AlvoSincronizado(pos[k])) == pos[k]))))
  {
    var forma := 7 <= |b| <= 8 && (|b| == 8 ==> b[6] == 'S');
    if forma && Selecionar(b).Junta? {
      var k := Selecionar(b).indice;
      if pos[k] != PosicaoInvalida && 0 <= pos[k] <= 9999 {
        GtpSincroniza(b, pos[k]);
      }
    }
  }

  /**
   * GTP as written on frame b when the channels stand at positions pos: as
   * Gtp, except that a readable gripper position is answered with the frame
   * received; what a synchronisation stores is AlvoSincronizadoComoEscrito.
   */
  function GtpComoEscrito(b: string, pos: seq<int>): (a: AcaoGtp)
    requires |pos| == 6
    ensures a.canal == Gtp(b, pos).canal && a.sincroniza == Gtp(b, pos).sincroniza
    ensures a.canal != 5 ==> a == Gtp(b, pos)
    ensures a.canal == 5 && pos[5] != PosicaoInvalida ==> a.resposta == b && Gtp(b, pos).resposta == RespostaGtp(b, pos[5])
  {
    var c := Gtp(b, pos);
    if c.canal == 5 && pos[5] != PosicaoInvalida then c.(resposta := RespostaGtpComoEscrita(b, 5, pos[5])) else c
  }
}
