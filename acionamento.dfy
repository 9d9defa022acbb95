// What the robot (Robo.cs) keeps about the servo command in flight, the
// calibration constants it loads into the servos, and the replies it sends
// about servo motion, as pure definitions.

module Acionamento {
  import opened Servomotor
  import opened Perfil
  import opened Protocolo

  // ---------------------------------------------------------------------
  // The servo command in flight

  /** How many servos the command in flight moves. */
  datatype Multiplicidade = Nenhum | ApenasUm | Varios

  /** The channel number standing for "no channel". */
  const CanalIndefinido := 255

  /** The kinds of motion feedback, numbered as FRS sets them. */
  const SemFeedback := 0
  const TemposDosServos := 1
  const SinalDeMovimento := 2

  /**
   * The in-flight record: how many servos the last motion command moves,
   * which command it was (and its mnemonic, for the final reply) and, for a
   * one-servo command, its channel.
   */
  datatype RegistroMov = RegistroMov(tipo: Multiplicidade, ult: ComandoProto, str: string, canal: int)

  /** A one-servo record always names one of the six channels. */
  predicate RegistroOk(r: RegistroMov)
  {
    r.tipo == ApenasUm ==> 0 <= r.canal < 6
  }

  /**
   * A one-servo command (GA, GF, CTZ) on channel canal: while no multi-servo
   * command is in flight, a command on a channel other than the one in flight
   * turns the record into a multi-servo JST; otherwise the record names this
   * command and channel.
   */
  function RegistrarUm(r: RegistroMov, canal: int, cmd: ComandoProto, str: string): RegistroMov
  {
    if r.tipo == Varios then r
    else if r.canal != canal && r.canal != CanalIndefinido then RegistroMov(Varios, CmdJST, "JST", CanalIndefinido)
    else RegistroMov(ApenasUm, cmd, str, canal)
  }

  /** A multi-servo command: the record names it, with no channel. */
  function RegistrarVarios(r: RegistroMov, cmd: ComandoProto, str: string): RegistroMov
  {
    RegistroMov(Varios, cmd, str, CanalIndefinido)
  }

  /** The record once the command in flight is over (ResetaVariaveisDeFeedBack); the mnemonic is kept. */
  function Resetado(r: RegistroMov): RegistroMov
  {
    r.(tipo := Nenhum, ult := CmdNone, canal := CanalIndefinido)
  }

  /** Every way of updating the record keeps it naming a channel when it is a one-servo record. */
  lemma RegistroPreservado(r: RegistroMov, canal: int, cmd: ComandoProto, str: string)
    requires RegistroOk(r) && 0 <= canal < 6
    ensures RegistroOk(RegistrarUm(r, canal, cmd, str))
    ensures RegistroOk(RegistrarVarios(r, cmd, str))
    ensures RegistroOk(Resetado(r))
  {
  }

  /**
   * One-servo commands accumulate: the first names its channel; a second on
   * the same channel replaces the first; a second on another channel makes
   * the record a multi-servo JST, which later one-servo commands leave as it is.
   */
  lemma RegistroAcumula(r: RegistroMov, c1: int, cmd1: ComandoProto, s1: string,
                        c2: int, cmd2: ComandoProto, s2: string)
    requires r.tipo == Nenhum && r.canal == CanalIndefinido && 0 <= c1 < 6 && 0 <= c2 < 6
    ensures var r1 := RegistrarUm(r, c1, cmd1, s1);
      r1 == RegistroMov(ApenasUm, cmd1, s1, c1)
      && (c2 == c1 ==> RegistrarUm(r1, c2, cmd2, s2) == RegistroMov(ApenasUm, cmd2, s2, c2))
      && (c2 != c1 ==> RegistrarUm(r1, c2, cmd2, s2) == RegistroMov(Varios, CmdJST, "JST", CanalIndefinido))
  {
  }

  /** Once a multi-servo command is in flight, one-servo commands do not change the record. */
  lemma RegistroVariosAbsorve(r: RegistroMov, canal: int, cmd: ComandoProto, str: string)
    requires r.tipo == Varios
    ensures RegistrarUm(r, canal, cmd, str) == r
  {
  }

  // ---------------------------------------------------------------------
  // Replies about servo motion

  /** A pulse time read from a position in units of 0.25 us, truncated to whole us. */
  function EmMicros(posicao: int): int
  {
    posicao / 4
  }

  /**
   * The final reply of a one-servo command: its mnemonic, the servo's name
   * for CTZ and IN1, and the servo's position in us.
   */
  function RespostaUmServo(r: RegistroMov, sigla: string, posicao: int): string
  {
    "[" + r.str + (if r.ult == CmdCTZ || r.ult == CmdIN1 then sigla else "") + Formata0000(EmMicros(posicao)) + "]"
  }

  /** The motion feedback of a one-servo command: the servo's name and its position in us. */
  function FeedbackUmServo(sigla: string, posicao: int): string
  {
    "[MOV" + sigla + Formata0000(EmMicros(posicao)) + "]"
  }

  /** What EnviarFeedback writes: a line break, then the feedback without one. */
  function Feedback(f: string): seq<string>
  {
    [Linha(""), f]
  }

  /** The servo letters and positions of a multi-servo reply, for channels 0 .. |ps|-1. */
  function TemposDosCanais(ids: seq<string>, ps: seq<int>): (s: string)
    requires |ids| == |ps|
    decreases |ps|
  {
    if ps == [] then ""
    else TemposDosCanais(ids[..|ps| - 1], ps[..|ps| - 1]) + ids[|ps| - 1] + Formata0000(EmMicros(ps[|ps| - 1]))
  }

  /** Each channel adds its letter and exactly four digits to a multi-servo reply of in-range positions. */
  lemma {:induction false} TemposDosCanaisTamanho(ids: seq<string>, ps: seq<int>)
    requires |ids| == |ps|
    requires forall i :: 0 <= i < |ps| ==> |ids[i]| == 1 && 0 <= ps[i] < 40000
    ensures |TemposDosCanais(ids, ps)| == 5 * |ps|
    decreases |ps|
  {
    if ps != [] {
      var n := |ps| - 1;
      TemposDosCanaisTamanho(ids[..n], ps[..n]);
      FormataLe(EmMicros(ps[n]));
    }
  }

  /** The JST letters of the six servos, channel order. */
  const IdsJst: seq<string> := ["A", "B", "C", "D", "E", "G"]

  lemma IdsDosServos(i: int)
    requires 0 <= i < 6
    ensures IdJst(i) == IdsJst[i]
  {
  }

  /** The final reply of a multi-servo command: its mnemonic and the six servos' positions in us. */
  function RespostaVarios(str: string, ps: seq<int>): string
    requires |ps| == 6
  {
    "[" + str + TemposDosCanais(IdsJst, ps) + "]"
  }

  /** The motion feedback of a multi-servo command: the six servos' positions in us. */
  function FeedbackVarios(ps: seq<int>): string
    requires |ps| == 6
  {
    "[MOV" + TemposDosCanais(IdsJst, ps) + "]"
  }

  /**
   * The final reply of the command in flight r once the board stops, for
   * servos named siglas at channel positions ps: the one-servo reply for
   * the channel r names, the multi-servo reply otherwise.
   */
  function RespostaDoFim(r: RegistroMov, siglas: seq<string>, ps: seq<int>): string
    requires RegistroOk(r) && |siglas| == 6 && |ps| == 6
  {
    if r.tipo == ApenasUm then RespostaUmServo(r, siglas[r.canal], ps[r.canal])
    else RespostaVarios(r.str, ps)
  }

  /** The servo letters and target pulse times the JST query reports for servos 0 .. |alvos|-1. */
  function AlvosJst(alvos: seq<real>): string
    requires |alvos| <= 6
    decreases |alvos|
  {
    if alvos == [] then ""
    else AlvosJst(alvos[..|alvos| - 1]) + IdJst(|alvos| - 1) + FormataReal(alvos[|alvos| - 1])
  }

  /** The JST listing of servos 0 .. i, after a prefix r, is that of servos 0 .. i-1 followed by servo i's letter and pulse time. */
  lemma AlvosJstPasso(r: string, alvos: seq<real>, i: int)
    requires 0 <= i < |alvos| <= 6
    ensures r + AlvosJst(alvos[..i + 1]) == r + AlvosJst(alvos[..i]) + IdJst(i) + FormataReal(alvos[i])
  {
    assert alvos[..i + 1][..i] == alvos[..i];
  }

  /**
   * The JST query reports each servo's letter followed by exactly four
   * digits when the target pulse times lie in 0 .. 9999 us: five characters a servo.
   */
  lemma {:induction false} AlvosJstTamanho(alvos: seq<real>)
    requires |alvos| <= 6
    requires forall i :: 0 <= i < |alvos| ==> 0.0 <= alvos[i] < 9999.0
    ensures |AlvosJst(alvos)| == 5 * |alvos|
    decreases |alvos|
  {
    if alvos != [] {
      var n := |alvos| - 1;
      AlvosJstTamanho(alvos[..n]);
      FormataLe(Arredonda(alvos[n]));
    }
  }

  /** The reply to a JST query: the listing of the servos asked for between "[JST" and "]". */
  function QuadroJst(listagem: string): string
  {
    "[JST" + listagem + "]"
  }

  /** The reply to a query of one servo, built a piece at a time. */
  lemma QuadroJstDeUm(id: string, f: string)
    ensures "[JST" + id + f + "]" == QuadroJst(id + f)
  {
    assert "[JST" + id + f == "[JST" + (id + f);
  }

  /**
   * The reply to a JST query of servo k, sent back as a frame, is a set
   * frame of one group that gives servo k the pulse time reported (clamped
   * into its range unless zero) and no other servo anything, the lowest
   * joint named being k (5 for the gripper).
   */
  lemma JstConsultaReaplicada(k: int, alvos: seq<real>, mins: seq<int>, maxs: seq<int>)
    requires 0 <= k < 6 && |alvos| == 6 && |mins| == 6 && |maxs| == 6 && 0.0 <= alvos[k] < 9999.0
    ensures var b := QuadroJst(IdJst(k) + FormataReal(alvos[k]));
      FrameJstAjuste(b)
      && AplicarJst(b, alvos, mins, maxs, 0, 5)
         == Jst(alvos[k := LimitarJst(Arredonda(alvos[k]), mins[k], maxs[k]) as real], 1, k)
  {
    var f := FormataReal(alvos[k]);
    FormataLe(Arredonda(alvos[k]));
    var b := QuadroJst(IdJst(k) + f);
    assert |b| == 10 && b[4] == IdJst(k)[0];
    assert b[5..9] == f;
    assert Digitos4(b, 5) && Valor4(b, 5) == Arredonda(alvos[k]) by {
      assert forall j :: 0 <= j < 4 ==> b[5 + j] == f[j];
    }
    JstUmGrupo(b, alvos, mins, maxs);
  }

  /** The reply to a query of a mode (FRS, CSB, ECH): the mnemonic and the mode's number. */
  function RespostaModo(mnemonico: string, n: nat): string
  {
    "[" + mnemonico + Decimal(n) + "]"
  }

  /**
   * A mode set by a six-character frame holding a digit is reported back by
   * the query as that same frame.
   */
  lemma ModoIdaEVolta(b: string, mnemonico: string)
    requires |b| == 6 && |mnemonico| == 3 && b[..4] == "[" + mnemonico && b[5] == ']'
    requires Digito(b[4])
    ensures Opcao(b[4]) == b[4] as int - '0' as int
    ensures RespostaModo(mnemonico, Opcao(b[4])) == b
  {
    var r := RespostaModo(mnemonico, Opcao(b[4]));
    assert Decimal(Opcao(b[4])) == [b[4]];
    forall i | 0 <= i < 6 ensures r[i] == b[i] {
      if i < 4 { assert b[i] == b[..4][i]; }
    }
  }

  /** The status lines STT writes for one servo; the gripper's limits are named as gripper positions. */
  function StatusServo(nome: string, sigla: string, alvo: real, min: int, max: int, neutro: int): seq<string>
  {
    var garra := sigla == "GR";
    [Linha(nome + ":"),
     Linha(" TMP PULSO = " + FormataReal(alvo)),
     Linha(" TMP " + (if garra then "GARRA FECHADA" else "MINIMO") + ": " + Formata0000(min)),
     Linha(" TMP " + (if garra then "GARRA ABERTA" else "MAXIMO") + ": " + Formata0000(max)),
     Linha(" TMP " + (if garra then "GARRA SEMI ABERTA" else "90 GRAUS") + ": " + Formata0000(neutro))]
  }

  /** The states of LEDs de .. ate-1 as STT spells them: "Pi:", " 1 " or " 0 ", "| ". */
  function TextoLeds(leds: seq<bool>, de: int, ate: int): string
    requires 0 <= de <= ate <= |leds| && ate <= 10
    decreases ate - de
  {
    if de == ate then ""
    else TextoLeds(leds, de, ate - 1) + "P" + [DigitoChar(ate - 1)] + ":" + (if leds[ate - 1] then " 1 " else " 0 ") + "| "
  }

  /** The two LED lines of STT: LEDs 0..3, then LEDs 4..7 under them. */
  function StatusLeds(leds: seq<bool>): seq<string>
    requires |leds| == 8
  {
    [Linha("LEDS: " + TextoLeds(leds, 0, 4)), Linha("      " + TextoLeds(leds, 4, 8))]
  }

  /** What GetPosition reports for a channel it cannot read. */
  const PosicaoInvalida := 0xFFFF

  /**
   * The target pulse a servo gets at start-up from its channel's position
   * (TempoPulsoInicial): the position as it is, or 0 when unreadable.
   */
  function AlvoInicial(posicao: int): real
  {
    if posicao == PosicaoInvalida then 0.0 else posicao as real
  }

  /** What Commit copies from a servo and Rollback restores: target pulse, speed and acceleration. */
  datatype CopiaServo = CopiaServo(tempoPulsoAlvo: real, velTmpPulso: int, acelTmpPulso: int)

  /** What TMX, TMN, T90, TRP, VEL and ACL configure in a servo. */
  datatype ParametrosServo = ParametrosServo(tempoPulsoMax: int, tempoPulsoMin: int, tempoPulsoPosNeutra: int,
                                             tempoPulsoRepouso: int, velTmpPulso: int, acelTmpPulso: int)

  /** Whether c is one of the commands that configure a servo. */
  predicate Configuracao(c: ComandoProto)
  {
    c == CmdTMX || c == CmdTMN || c == CmdT90 || c == CmdTRP || c == CmdVEL || c == CmdACL
  }

  /** The value command c configures. */
  function Campo(p: ParametrosServo, c: ComandoProto): int
    requires Configuracao(c)
  {
    match c
    case CmdTMX => p.tempoPulsoMax
    case CmdTMN => p.tempoPulsoMin
    case CmdT90 => p.tempoPulsoPosNeutra
    case CmdTRP => p.tempoPulsoRepouso
    case CmdVEL => p.velTmpPulso
    case CmdACL => p.acelTmpPulso
  }

  /** The configuration with the value of command c set to v and the others as they were. */
  function ComCampo(p: ParametrosServo, c: ComandoProto, v: int): (q: ParametrosServo)
    requires Configuracao(c)
    ensures Campo(q, c) == v
  {
    match c
    case CmdTMX => p.(tempoPulsoMax := v)
    case CmdTMN => p.(tempoPulsoMin := v)
    case CmdT90 => p.(tempoPulsoPosNeutra := v)
    case CmdTRP => p.(tempoPulsoRepouso := v)
    case CmdVEL => p.(velTmpPulso := v)
    case CmdACL => p.(acelTmpPulso := v)
  }

  /** The servo a configuration frame selects, 0 when it selects none. */
  function IndiceSelecionado(b: string): (k: int)
    requires QuadroSelecionavel(b)
    ensures 0 <= k < 6
  {
    if Selecionar(b).Junta? then Selecionar(b).indice else 0
  }

  /** VALSET's outcome for configuration frame b when the selected servo's field holds atual: a NAK when no servo is selected. */
  function ResultadoConfig(b: string, atual: int): Valset
    requires QuadroSelecionavel(b)
  {
    if Selecionar(b).Junta? then ValSet(b, atual) else ValsetNak
  }

  /** The reply to configuration command cmd on frame b: the rewritten frame, or its refusal. */
  function RespostaConfig(cmd: ComandoProto, b: string, atual: int): string
    requires QuadroSelecionavel(b)
  {
    match Selecionar(b)
    case JuntaInvalida => JntNak
    case SemJunta => Nak(MnemonicoDe(cmd))
    case Junta(_) => if ValSet(b, atual).ValsetOk? then ValSet(b, atual).quadro else Nak(MnemonicoDe(cmd))
  }

  /** The reply to an accepted configuration frame is the rewritten frame. */
  lemma RespostaAceita(cmd: ComandoProto, b: string, atual: int)
    requires QuadroSelecionavel(b)
    ensures ResultadoConfig(b, atual).ValsetOk? ==> RespostaConfig(cmd, b, atual) == ResultadoConfig(b, atual).quadro
  {
  }

  /**
   * A configuration frame is accepted exactly when it names J0..J4 or GR
   * and is a 7-character query or an 11-character frame with four digits;
   * an accepted set frame stores its digits (1 for 0000) and the reply
   * carries that value; a refused frame gets JNT NAK when it names a joint
   * other than J0..J4, and the command's NAK otherwise.
   */
  lemma ConfigResponde(cmd: ComandoProto, b: string, atual: int)
    requires QuadroSelecionavel(b)
    ensures var r := ResultadoConfig(b, atual);
      (r.ValsetOk? <==> Selecionar(b).Junta? && (|b| == 7 || (|b| == 11 && Digitos4(b, 6))))
      && (r.ValsetOk? ==> RespostaConfig(cmd, b, atual) == r.quadro && r.quadro[..6] == b[..6])
      && (r.ValsetOk? && |b| == 11 ==>
            r.valor == (if Valor4(b, 6) == 0 then 1 else Valor4(b, 6)) && Valor4(r.quadro, 6) == r.valor)
      && (r.ValsetOk? && |b| == 7 ==> r.valor == atual)
      && (r.ValsetNak? ==>
            RespostaConfig(cmd, b, atual) == if Selecionar(b).JuntaInvalida? then JntNak else Nak(MnemonicoDe(cmd)))
  {
    if Selecionar(b).Junta? {
      ValsetRecusa(b, atual);
      if |b| == 11 {
        ValsetDefine(b, atual);
      }
    }
  }

  // ---------------------------------------------------------------------
  // Calibration constants (IniciarServos), per servo, in us

  const TempoMin: seq<int> := [480, 768, 800, 528, 512, 416]
  const TempoMax: seq<int> := [2432, 2256, 2208, 2480, 2432, 2000]
  /** The gripper's neutral pulse is the midpoint of its range. */
  const TempoNeutro: seq<int> := [1405, 1798, 2208, 1251, 1472, (2000 + 416) / 2]
  const TempoRepouso: seq<int> := [480, 2256, 959, 1836, 1472, 2000]
  const Velocidade: seq<int> := [128, 128, 92, 92, 128, 100]
  const Aceleracao: seq<int> := [16, 16, 24, 32, 32, 0]

  /** Each servo's angle range (degrees), its shift to Denavit-Hartenberg terms and its mounting. */
  const AnguloMinimo: seq<real> := [-90.0, -90.0, -133.0, -126.0, -90.0, 0.0]
  const AnguloMaximo: seq<real> := [100.0, 40.0, 0.0, 74.0, 90.0, 180.0]
  const DifAnguloDH: seq<real> := [0.0, 90.0, 0.0, 90.0, 0.0, 0.0]
  const ProporcaoInversa: seq<bool> := [false, false, false, true, false, true]

  /** Joint i (0..4) is named "JUNTA i", "Ji" and JST letter 'A'+i; the gripper "GARRA", "GR" and 'G'. */
  function Nome(i: int): string
  {
    if 0 <= i < 5 then "JUNTA " + [DigitoChar(i)] else "GARRA"
  }

  function Sigla(i: int): string
  {
    if 0 <= i < 5 then "J" + [DigitoChar(i)] else "GR"
  }

  function IdJst(i: int): (id: string)
    ensures |id| == 1 && ServoJst(id[0]) == (if 0 <= i < 5 then i else 5)
  {
    if 0 <= i < 5 then [('A' as int + i) as char] else "G"
  }

  /**
   * Every servo's neutral and rest pulses lie inside its range, the range is
   * not empty, and the range in units of 0.25 us fits the board's 16 bits.
   */
  lemma ConstantesCoerentes(i: int)
    requires 0 <= i < 6
    ensures 0 < TempoMin[i] < TempoMax[i] && 4 * TempoMax[i] < 0x1_0000
    ensures TempoMin[i] <= TempoNeutro[i] <= TempoMax[i]
    ensures TempoMin[i] <= TempoRepouso[i] <= TempoMax[i]
  {
  }

  // ---------------------------------------------------------------------
  // ParadaTotal: each channel's target set to where the channel stands

  /**
   * As written, ParadaTotal passes the position, in 0.25 us, where
   * SetTarget expects us: the new target is four times the position,
   * clamped to the maximum, so a channel below its maximum is sent away
   * from where it stands instead of stopping.
   */
  lemma AlvoDaParadaComoEscrita(s: Estado)
    requires 0 < s.min <= s.position <= s.max
    ensures var r := SetarTargetSpec(s, Quartos(s.position as real));
      r.estado.target == (if 4 * s.position > s.max then s.max else 4 * s.position)
      && (s.position < s.max ==> r.estado.target > s.position)
      && (s.position < s.max && (s.speed > 0 || s.acceleration > 0) ==> r.moveu)
  {
    SetarTargetAlvo(s, 4 * s.position);
    SetarTargetMovimento(s, 4 * s.position);
  }

  /**
   * A concrete case: joint 0 (range 480..2432 us) standing at 1000 us, with
   * its start-up speed and acceleration, is sent to 2432 us.
   */
  lemma AlvoDaParadaContraExemplo()
    ensures var s := EstadoInicial.(position := 4000, target := 6000, min := 1920, max := 9728,
                                    speed := 128, acceleration := 16);
      var r := SetarTargetSpec(s, Quartos(s.position as real));
      r.estado.target == 9728 && r.moveu
  {
    var s := EstadoInicial.(position := 4000, target := 6000, min := 1920, max := 9728,
                            speed := 128, acceleration := 16);
    AlvoDaParadaComoEscrita(s);
  }

  /**
   * Corrected, ParadaTotal passes the position in us, as the multi-servo
   * position feedback of RespEFeedbackMovServos already does: a channel whose minimum
   * is a whole number of us gets as target its own position rounded down to
   * a whole us, less than 1 us from where it stands, and does not move when
   * it stands on a whole us.
   */
  lemma AlvoDaParadaCorrigida(s: Estado)
    requires 0 < s.min <= s.position <= s.max && s.min % 4 == 0
    ensures var r := SetarTargetSpec(s, Quartos(EmMicros(s.position) as real));
      r.estado.target == 4 * EmMicros(s.position)
      && s.position - 3 <= r.estado.target <= s.position
      && (s.position % 4 == 0 ==> !r.moveu && r.estado.position == s.position)
  {
    var t := EmMicros(s.position);
    assert s.min <= 4 * t by {
      assert s.min == 4 * (s.min / 4);
    }
    SetarTargetAlvo(s, 4 * t);
    SetarTargetMovimento(s, 4 * t);
  }

  // ---------------------------------------------------------------------
  // The start-up sequence to the rest position

  /** The speed and acceleration every channel gets while the arm goes to rest. */
  const VelocidadeDeRepouso := 10
  const AceleracaoDeRepouso := 2

  /**
   * The step of the start-up sequence after one call of PosicaoRepouso in
   * step e: 0 slows the channels down, 2 turns joint 0, 4 sends the arm to
   * rest, 6 restores the speeds; 3 and 5 wait until no servo command is in
   * flight (emCurso) and the timer has run out; 1 is the end, and any other
   * value is left alone.
   */
  function ProximoEstado(e: int, emCurso: bool, timerAtivo: bool): int
  {
    if e == 0 then 2
    else if e == 2 then 3
    else if e == 3 then (if !emCurso && !timerAtivo then 4 else 3)
    else if e == 4 then 5
    else if e == 5 then (if !emCurso && !timerAtivo then 6 else 5)
    else if e == 6 then 1
    else e
  }

  /** The steps still to go before the end of the start-up sequence. */
  function Restantes(e: int): nat
  {
    if e == 0 then 6 else if e == 2 then 5 else if e == 3 then 4 else if e == 4 then 3
    else if e == 5 then 2 else if e == 6 then 1 else 0
  }

  /**
   * Every step keeps the start-up sequence within 0 .. 6 and never goes
   * back; it goes forward by exactly one step except while waiting in 3 or
   * 5 for the servo command or the timer; and the end, 1, is never left.
   */
  lemma PassoDoRepouso(e: int, emCurso: bool, timerAtivo: bool)
    requires 0 <= e <= 6
    ensures var e' := ProximoEstado(e, emCurso, timerAtivo);
      0 <= e' <= 6 && Restantes(e') <= Restantes(e)
      && (Restantes(e') == Restantes(e) <==> e == 1 || ((e == 3 || e == 5) && (emCurso || timerAtivo)))
      && (Restantes(e') < Restantes(e) ==> Restantes(e') == Restantes(e) - 1)
      && (e == 1 ==> e' == 1)
  {
  }

  /** The step reached from e after n calls in which nothing is in flight and the timer has run out. */
  function Apos(e: int, n: nat): int
  {
    if n == 0 then e else ProximoEstado(Apos(e, n - 1), false, false)
  }

  /**
   * From any step of the start-up sequence, n calls with nothing in flight
   * and the timer out leave Restantes(e) - n steps to go, so that six such
   * calls always reach the end.
   */
  lemma {:induction false} RepousoTermina(e: int, n: nat)
    requires 0 <= e <= 6
    ensures 0 <= Apos(e, n) <= 6
    ensures Restantes(Apos(e, n)) == if n >= Restantes(e) then 0 else Restantes(e) - n
    ensures n >= 6 ==> Apos(e, n) == 1
  {
    if n > 0 {
      RepousoTermina(e, n - 1);
      PassoDoRepouso(Apos(e, n - 1), false, false);
    }
  }
}
