// The robot (Robo.cs): the serial protocol's reception and decoding, the
// servo commands it issues to the Mini Maestro board, the replies and motion
// feedback it writes, and the start-up sequence that calibrates the servos
// and brings the arm to rest.

module Robo {
  import opened Servomotor
  import opened Perfil
  import opened Canal
  import opened Placa
  import opened Protocolo
  import opened Acionamento
  import opened Comandos

  /** The six servos carry their names. */
  predicate Identificados(servos: seq<Servo>)
  {
    |servos| == 6
    && forall i :: 0 <= i < 6 ==>
         servos[i].nome == Nome(i) && servos[i].sigla == Sigla(i) && servos[i].idJST == IdJst(i)
  }

  /** The robot's six servos, joints 0..4 and the gripper, with their names and angle ranges. */
  method NovosServos() returns (ss: seq<Servo>)
    ensures Identificados(ss)
    ensures forall i :: 0 <= i < 6 ==>
      fresh(ss[i]) && ss[i].anguloMin == AnguloMinimo[i] && ss[i].anguloMax == AnguloMaximo[i]
      && ss[i].difAnguloCorrenteDH == DifAnguloDH[i] && ss[i].proporcaoInversaTmpPulsoParaAngulo == ProporcaoInversa[i]
      && ss[i].tempoPulsoAlvo == 0.0 && ss[i].tempoPulsoCorrente == 0.0 && ss[i].anguloCorrente == 0.0
    ensures forall i, j :: 0 <= i < j < 6 ==> ss[i] != ss[j]
  {
    ss := [];
    for i := 0 to 6
      invariant |ss| == i
      invariant forall k :: 0 <= k < i ==>
        fresh(ss[k]) && ss[k].nome == Nome(k) && ss[k].sigla == Sigla(k) && ss[k].idJST == IdJst(k)
        && ss[k].anguloMin == AnguloMinimo[k] && ss[k].anguloMax == AnguloMaximo[k]
        && ss[k].difAnguloCorrenteDH == DifAnguloDH[k] && ss[k].proporcaoInversaTmpPulsoParaAngulo == ProporcaoInversa[k]
        && ss[k].tempoPulsoAlvo == 0.0 && ss[k].tempoPulsoCorrente == 0.0 && ss[k].anguloCorrente == 0.0
      invariant forall k, j :: 0 <= k < j < i ==> ss[k] != ss[j]
    {
      var s := new Servo(Nome(i), Sigla(i), IdJst(i), AnguloMinimo[i], AnguloMaximo[i], DifAnguloDH[i],
                         ProporcaoInversa[i]);
      ss := ss + [s];
    }
  }

  /** The board over the robot's six new servos, channel i driving servo i; nothing has moved yet. */
  method NovaPlaca() returns (placa: PlacaMiniMaestro24, ss: seq<Servo>)
    ensures fresh(placa) && placa.Valid() && Identificados(ss)
    ensures forall i :: 0 <= i < 6 ==>
      fresh(placa.canais[i]) && fresh(ss[i]) && placa.canais[i].servo == ss[i]
      && placa.canais[i].position == 0 && ss[i].tempoPulsoAlvo == 0.0
    ensures forall c :: c in placa.Canais() ==> fresh(c)
    ensures forall s :: s in placa.Servos() ==> fresh(s)
  {
    ss := NovosServos();
    placa := new PlacaMiniMaestro24(ss);
    forall s | s in placa.Servos()
      ensures fresh(s)
    {
      var c :| c in placa.canais && s == c.servo;
      var k :| 0 <= k < 6 && placa.canais[k] == c;
    }
  }

  class Robo {
    /** The board driving the six servos, channel i driving servos[i]. */
    const placa: PlacaMiniMaestro24
    const servos: seq<Servo>
    /** The values last committed, per servo. */
    var servosTemp: seq<CopiaServo>
    /** Characters received from the serial port and not yet read. */
    var bfRecebe: string
    /** Everything written to the serial port, one Write per element. */
    var saida: seq<string>
    var bufferProto: string
    var flagProtocolo: bool
    var dataReady: bool
    var ultimoCharRecebido: char
    /** The step of the start-up sequence; 1 once the arm is at rest. */
    var estadoPosicaoRepouso: int
    var feedbackRastrServos: int
    var frsTemp: int
    var comando: ComandoProto
    var ultCmdMovServos: ComandoProto
    var strUltCmdMovServos: string
    var tipoCmdMovServosPorQt: Multiplicidade
    var canalCmd1ServoNaoBloq: int
    var paradaTotalSolicitada: bool
    var comandosServosBloqueantes: bool
    var ecoCaracteresAtivado: bool
    var indexServo: int
    var resposta: string
    var bufferLeds: seq<bool>

    /** The reception fields as a value. */
    function Rx(): Recepcao
      reads this`bufferProto, this`flagProtocolo, this`dataReady, this`ultimoCharRecebido
    {
      Recepcao(bufferProto, flagProtocolo, dataReady, ultimoCharRecebido)
    }

    /** The in-flight record as a value. */
    function Registro(): RegistroMov
      reads this`tipoCmdMovServosPorQt, this`ultCmdMovServos, this`strUltCmdMovServos, this`canalCmd1ServoNaoBloq
    {
      RegistroMov(tipoCmdMovServosPorQt, ultCmdMovServos, strUltCmdMovServos, canalCmd1ServoNaoBloq)
    }

    /** The start-up step and the feedback, echo and blocking modes. */
    function Modos(): (int, int, bool, bool)
      reads this`estadoPosicaoRepouso, this`feedbackRastrServos, this`ecoCaracteresAtivado, this`comandosServosBloqueantes
    {
      (estadoPosicaoRepouso, feedbackRastrServos, ecoCaracteresAtivado, comandosServosBloqueantes)
    }

    /** The reception, the in-flight record and the modes, which start-up and commits leave as they are. */
    function Controle(): (Recepcao, RegistroMov, (int, int, bool, bool))
      reads this`bufferProto, this`flagProtocolo, this`dataReady, this`ultimoCharRecebido,
            this`tipoCmdMovServosPorQt, this`ultCmdMovServos, this`strUltCmdMovServos, this`canalCmd1ServoNaoBloq,
            this`estadoPosicaoRepouso, this`feedbackRastrServos, this`ecoCaracteresAtivado, this`comandosServosBloqueantes
    {
      (Rx(), Registro(), Modos())
    }

    /**
     * The reception, in-flight record and modes of a new robot: no frame
     * being received, nothing in flight, start-up at its first step, servo
     * target feedback, echo on, servo commands not blocking.
     */
    const ControleInicial := (Recepcao("", false, false, '?'), RegistroMov(Nenhum, CmdNone, "", 0),
                              (0, TemposDosServos, true, false))

    /** Six distinct channels, channel i driving servos[i]. */
    ghost predicate Ligados()
    {
      placa.CanaisDistintos() && |servos| == 6 && forall i :: 0 <= i < 6 ==> servos[i] == placa.canais[i].servo
    }

    ghost predicate Valid()
      reads this`servosTemp, this`bufferLeds, this`bufferProto, this`flagProtocolo, this`dataReady,
            this`ultimoCharRecebido, this`tipoCmdMovServosPorQt, this`ultCmdMovServos, this`strUltCmdMovServos,
            this`canalCmd1ServoNaoBloq, this`feedbackRastrServos, this`frsTemp, placa`conta80ms, placa`movingState
    {
      placa.Valid() && Ligados()
      && |servosTemp| == 6 && |bufferLeds| == 8
      && RecepcaoOk(Rx()) && RegistroOk(Registro())
      && SemFeedback <= feedbackRastrServos <= SinalDeMovimento && SemFeedback <= frsTemp <= SinalDeMovimento
    }

    /** The servos are six distinct objects, each one the servo of its channel. */
    lemma ServosDaPlaca()
      requires Ligados()
      ensures forall i :: 0 <= i < 6 ==> servos[i] in placa.Servos() && placa.canais[i] in placa.Canais()
      ensures forall i, j :: 0 <= i < j < 6 ==> servos[i] != servos[j]
    {
      forall i | 0 <= i < 6
        ensures servos[i] in placa.Servos() && placa.canais[i] in placa.Canais()
      {
        assert placa.canais[i] in placa.canais;
      }
    }

    /** The six servos are distinct objects. */
    ghost predicate ServosDistintos()
    {
      |servos| == 6 && forall i, j :: 0 <= i < j < 6 ==> servos[i] != servos[j]
    }

    // -------------------------------------------------------------------
    // Start-up

    /**
     * The robot: its six servos, the board with channel i driving servo i,
     * and the servos calibrated.
     */
    constructor ()
      ensures Valid() && Identificados(servos) && fresh(placa)
      ensures forall i :: 0 <= i < 6 ==> fresh(servos[i])
      ensures forall i :: 0 <= i < 6 ==> servos[i].tempoPulsoAlvo == 0.0
      ensures forall i :: 0 <= i < 6 ==> Configurado(i)
      ensures Controle() == ControleInicial && saida == []
    {
      var p, ss := NovaPlaca();
      placa, servos := p, ss;
      servosTemp := [CopiaServo(0.0, 0, 0), CopiaServo(0.0, 0, 0), CopiaServo(0.0, 0, 0),
                     CopiaServo(0.0, 0, 0), CopiaServo(0.0, 0, 0), CopiaServo(0.0, 0, 0)];
      bfRecebe, saida := "", [];
      bufferProto, flagProtocolo, dataReady, ultimoCharRecebido := "", false, false, '?';
      estadoPosicaoRepouso, feedbackRastrServos, frsTemp := 0, TemposDosServos, SemFeedback;
      comando, ultCmdMovServos, strUltCmdMovServos := CmdNone, CmdNone, "";
      tipoCmdMovServosPorQt, canalCmd1ServoNaoBloq := Nenhum, 0;
      paradaTotalSolicitada, comandosServosBloqueantes, ecoCaracteresAtivado := false, false, true;
      indexServo, resposta := 0, "";
      bufferLeds := [false, false, false, false, false, false, false, false];
      new;
      assert Valid() && Controle() == ControleInicial;
      assert forall i :: 0 <= i < 6 ==> placa.canais[i].position == 0;
      IniciarServos();
    }

    /**
     * Servo i and its channel carry the start-up configuration: the pulse
     * limits, neutral and rest pulses, speed and acceleration of the tables,
     * the channel's speed, acceleration and limits (in units of 0.25 us), and
     * the angle conversion calibrated over the pulse range.
     */
    ghost predicate Configurado(i: int)
      requires 0 <= i < 6 && |servos| == 6 && |placa.canais| == 6
      reads servos[i], placa.canais[i]
    {
      var s, c := servos[i], placa.canais[i];
      ConstantesCoerentes(i);
      s.tempoPulsoMax == TempoMax[i] && s.tempoPulsoMin == TempoMin[i]
      && s.tempoPulsoPosNeutra == TempoNeutro[i] && s.tempoPulsoRepouso == TempoRepouso[i]
      && s.velTmpPulso == Velocidade[i] && s.acelTmpPulso == Aceleracao[i]
      && c.speed == Velocidade[i] && c.acceleration == Aceleracao[i]
      && c.max == 4 * TempoMax[i] && c.min == 4 * TempoMin[i]
      && s.conversaoTempoParaAnguloAtiva
      && Calibracao(s.coefAngular, s.offsetAngular)
         == Calibrar(TempoMin[i] as real, TempoMax[i] as real, s.anguloMin, s.anguloMax,
                     s.proporcaoInversaTmpPulsoParaAngulo)
    }

    /**
     * After start-up, servo i's conversion maps its maximum pulse to its
     * maximum angle and its minimum pulse to its minimum angle (the other way
     * round for a servo mounted in inverse proportion), and every pulse in
     * between to an angle in between.
     */
    lemma CalibracaoDoServo(i: int, t: real)
      requires Valid() && 0 <= i < 6 && Configurado(i)
      requires servos[i].anguloMin <= servos[i].anguloMax
      requires TempoMin[i] as real <= t <= TempoMax[i] as real
      ensures var s := servos[i];
        Angulo(s.coefAngular, s.offsetAngular, TempoMax[i] as real)
          == (if s.proporcaoInversaTmpPulsoParaAngulo then s.anguloMin else s.anguloMax)
        && Angulo(s.coefAngular, s.offsetAngular, TempoMin[i] as real)
          == (if s.proporcaoInversaTmpPulsoParaAngulo then s.anguloMax else s.anguloMin)
        && s.anguloMin <= Angulo(s.coefAngular, s.offsetAngular, t) <= s.anguloMax
    {
      var s := servos[i];
      ConstantesCoerentes(i);
      CalibracaoNaFaixa(TempoMin[i] as real, TempoMax[i] as real, s.anguloMin, s.anguloMax,
                        s.proporcaoInversaTmpPulsoParaAngulo, t);
    }

    /**
     * IniciarServos: each servo's target pulse is read back from its channel,
     * the servos and channels are configured, and the targets are committed.
     */
    method IniciarServos()
      requires Valid()
      modifies this`saida, this`servosTemp, placa.Canais()`speed, placa.Canais()`acceleration,
               placa.Canais()`max, placa.Canais()`min,
               placa.Servos()`tempoPulsoAlvo, placa.Servos()`tempoPulsoMax, placa.Servos()`tempoPulsoMin,
               placa.Servos()`tempoPulsoPosNeutra, placa.Servos()`tempoPulsoRepouso,
               placa.Servos()`velTmpPulso, placa.Servos()`acelTmpPulso, placa.Servos()`coefAngular,
               placa.Servos()`offsetAngular, placa.Servos()`conversaoTempoParaAnguloAtiva
      ensures Valid()
      ensures forall i :: 0 <= i < 6 ==> Configurado(i)
      ensures forall i :: 0 <= i < 6 ==> servos[i].tempoPulsoAlvo == AlvoInicial(old(placa.canais[i].position))
      ensures forall i :: 0 <= i < 6 ==> servosTemp[i] == old(servosTemp[i]).(tempoPulsoAlvo := servos[i].tempoPulsoAlvo)
      ensures saida == old(saida) + old(ErrosIniciais(6))
      ensures (forall i :: 0 <= i < 6 ==> old(placa.canais[i].position) != PosicaoInvalida) ==> saida == old(saida)
      ensures Controle() == old(Controle())
    {
      LerAlvosIniciais();
      ConfigurarServos();
      CommitTempos();
    }

    /** The ERR replies for the unreadable channels among 0 .. n-1. */
    ghost function ErrosIniciais(n: int): seq<string>
      requires 0 <= n <= 6 && |placa.canais| == 6
      reads placa.canais
    {
      if n == 0 then [] else ErrosIniciais(n - 1) + ErroInicial(placa.canais[n - 1].position, n - 1)
    }

    /** The output s followed by the ERR replies for the unreadable channels among 0 .. n-1. */
    ghost function SaidaComErros(s: seq<string>, n: int): seq<string>
      requires 0 <= n <= 6 && |placa.canais| == 6
      reads placa.canais
    {
      if n == 0 then s else SaidaComErros(s, n - 1) + ErroInicial(placa.canais[n - 1].position, n - 1)
    }

    lemma {:induction false} SaidaComErrosIniciais(s: seq<string>, n: int)
      requires 0 <= n <= 6 && |placa.canais| == 6
      ensures SaidaComErros(s, n) == s + ErrosIniciais(n)
    {
      if n > 0 {
        SaidaComErrosIniciais(s, n - 1);
      }
    }

    /** The ERR reply for channel k at start-up when its position p cannot be read. */
    function ErroInicial(p: int, k: int): seq<string>
      requires 0 <= k < 6
    {
      if p == PosicaoInvalida then Resposta(Err("INIT_CANAL_0" + [DigitoChar(k)])) else []
    }

    /** No ERR reply at start-up when every channel can be read. */
    lemma {:induction false} SemErrosIniciais(n: int)
      requires 0 <= n <= 6 && |placa.canais| == 6
      requires forall i :: 0 <= i < n ==> placa.canais[i].position != PosicaoInvalida
      ensures ErrosIniciais(n) == []
    {
      if n > 0 {
        SemErrosIniciais(n - 1);
      }
    }

    /** The first part of IniciarServos: every servo's target read back from its channel. */
    method LerAlvosIniciais()
      requires placa.Valid() && Ligados()
      modifies this`saida, placa.Servos()`tempoPulsoAlvo
      ensures forall i :: 0 <= i < 6 ==> servos[i].tempoPulsoAlvo == AlvoInicial(placa.canais[i].position)
      ensures saida == old(saida) + ErrosIniciais(6)
      ensures (forall i :: 0 <= i < 6 ==> placa.canais[i].position != PosicaoInvalida) ==> saida == old(saida)
      ensures Controle() == old(Controle())
    {
      if forall i :: 0 <= i < 6 ==> placa.canais[i].position != PosicaoInvalida {
        SemErrosIniciais(6);
      }
      ServosDaPlaca();
      for i := 0 to 6
        invariant saida == SaidaComErros(old(saida), i)
        invariant forall j :: 0 <= j < i ==> servos[j].tempoPulsoAlvo == AlvoInicial(placa.canais[j].position)
      {
        LerAlvoInicial(i);
      }
      SaidaComErrosIniciais(old(saida), 6);
    }

    /** One servo's target read back from its channel. */
    method LerAlvoInicial(i: int)
      requires placa.Valid() && Ligados() && 0 <= i < 6
      modifies this`saida, {servos[i]}`tempoPulsoAlvo
      ensures servos[i].tempoPulsoAlvo == AlvoInicial(placa.canais[i].position)
      ensures saida == old(saida) + ErroInicial(placa.canais[i].position, i)
    {
      var t := TempoPulsoInicial(i);
      servos[i].tempoPulsoAlvo := t;
    }

    /** The target pulse of a servo at start-up: its channel's position, or 0 with an ERR reply when unreadable. */
    method TempoPulsoInicial(canal: int) returns (t: real)
      requires placa.Valid() && 0 <= canal < 6
      modifies this`saida
      ensures t == AlvoInicial(placa.canais[canal].position)
      ensures saida == old(saida) + (if placa.canais[canal].position == PosicaoInvalida
                                     then Resposta(Err("INIT_CANAL_0" + [DigitoChar(canal)])) else [])
    {
      var p := placa.GetPosition(canal);
      if p == PosicaoInvalida {
        RespostaComando(Err("INIT_CANAL_0" + [DigitoChar(canal)]));
        return 0.0;
      }
      return p as real;
    }

    /**
     * The rest of IniciarServos: the servos' tables and each channel's speed,
     * acceleration and limits, and the angle conversions. The source writes
     * the tables into all servos before its loop over the channels; the
     * writes touch different fields, so here each servo is done in turn.
     */
    method ConfigurarServos()
      requires Valid()
      modifies placa.Canais()`speed, placa.Canais()`acceleration, placa.Canais()`max, placa.Canais()`min,
               placa.Servos()`tempoPulsoMax, placa.Servos()`tempoPulsoMin,
               placa.Servos()`tempoPulsoPosNeutra, placa.Servos()`tempoPulsoRepouso,
               placa.Servos()`velTmpPulso, placa.Servos()`acelTmpPulso, placa.Servos()`coefAngular,
               placa.Servos()`offsetAngular, placa.Servos()`conversaoTempoParaAnguloAtiva
      ensures Valid()
      ensures forall i :: 0 <= i < 6 ==> Configurado(i)
      ensures Controle() == old(Controle())
    {
      ServosDaPlaca();
      for i := 0 to 6
        invariant forall j :: 0 <= j < i ==> Configurado(j)
      {
        ConfigurarServo(i);
      }
    }

    /** One servo and its channel configured. */
    method ConfigurarServo(i: int)
      requires Ligados() && 0 <= i < 6
      modifies {placa.canais[i]}`speed, {placa.canais[i]}`acceleration, {placa.canais[i]}`max,
               {placa.canais[i]}`min, {servos[i]}`tempoPulsoMax, {servos[i]}`tempoPulsoMin,
               {servos[i]}`tempoPulsoPosNeutra, {servos[i]}`tempoPulsoRepouso, {servos[i]}`velTmpPulso,
               {servos[i]}`acelTmpPulso, {servos[i]}`coefAngular, {servos[i]}`offsetAngular,
               {servos[i]}`conversaoTempoParaAnguloAtiva
      ensures Configurado(i)
    {
      var s, c := servos[i], placa.canais[i];
      var tMax, tMin := TempoMax[i], TempoMin[i];
      ConstantesCoerentes(i);
      s.tempoPulsoMax, s.tempoPulsoMin, s.tempoPulsoPosNeutra, s.tempoPulsoRepouso, s.velTmpPulso, s.acelTmpPulso
        := tMax, tMin, TempoNeutro[i], TempoRepouso[i], Velocidade[i], Aceleracao[i];
      c.speed, c.acceleration, c.max, c.min := Velocidade[i], Aceleracao[i], tMax * 4, tMin * 4;
      // The line through (tMax, the angle at tMax) and (tMin, the angle at tMin).
      var cal := Calibrar(tMin as real, tMax as real, s.anguloMin, s.anguloMax, s.proporcaoInversaTmpPulsoParaAngulo);
      s.coefAngular, s.offsetAngular, s.conversaoTempoParaAnguloAtiva := cal.coef, cal.offset, true;
    }

    // -------------------------------------------------------------------
    // Commit and rollback of the servos' target pulse, speed and acceleration

    method CommitTempos()
      requires Valid()
      modifies this`servosTemp
      ensures Valid()
      ensures forall i :: 0 <= i < 6 ==> servosTemp[i] == old(servosTemp[i]).(tempoPulsoAlvo := servos[i].tempoPulsoAlvo)
      ensures Controle() == old(Controle())
    {
      for i := 0 to 6
        invariant |servosTemp| == 6
        invariant forall j :: 0 <= j < i ==> servosTemp[j] == old(servosTemp[j]).(tempoPulsoAlvo := servos[j].tempoPulsoAlvo)
        invariant forall j :: i <= j < 6 ==> servosTemp[j] == old(servosTemp[j])
      {
        servosTemp := servosTemp[i := servosTemp[i].(tempoPulsoAlvo := servos[i].tempoPulsoAlvo)];
      }
    }

    method CommitVelocidades()
      requires Valid()
      modifies this`servosTemp
      ensures Valid()
      ensures forall i :: 0 <= i < 6 ==> servosTemp[i] == old(servosTemp[i]).(velTmpPulso := servos[i].velTmpPulso)
    {
      for i := 0 to 6
        invariant |servosTemp| == 6
        invariant forall j :: 0 <= j < i ==> servosTemp[j] == old(servosTemp[j]).(velTmpPulso := servos[j].velTmpPulso)
        invariant forall j :: i <= j < 6 ==> servosTemp[j] == old(servosTemp[j])
      {
        servosTemp := servosTemp[i := servosTemp[i].(velTmpPulso := servos[i].velTmpPulso)];
      }
    }

    method CommitAceleracoes()
      requires Valid()
      modifies this`servosTemp
      ensures Valid()
      ensures forall i :: 0 <= i < 6 ==> servosTemp[i] == old(servosTemp[i]).(acelTmpPulso := servos[i].acelTmpPulso)
    {
      for i := 0 to 6
        invariant |servosTemp| == 6
        invariant forall j :: 0 <= j < i ==> servosTemp[j] == old(servosTemp[j]).(acelTmpPulso := servos[j].acelTmpPulso)
        invariant forall j :: i <= j < 6 ==> servosTemp[j] == old(servosTemp[j])
      {
        servosTemp := servosTemp[i := servosTemp[i].(acelTmpPulso := servos[i].acelTmpPulso)];
      }
    }

    method RollbackTempos()
      requires Valid()
      modifies placa.Servos()`tempoPulsoAlvo
      ensures Valid()
      ensures forall i :: 0 <= i < 6 ==> servos[i].tempoPulsoAlvo == servosTemp[i].tempoPulsoAlvo
    {
      ServosDaPlaca();
      for i := 0 to 6
        invariant forall j :: 0 <= j < i ==> servos[j].tempoPulsoAlvo == servosTemp[j].tempoPulsoAlvo
      {
        servos[i].tempoPulsoAlvo := servosTemp[i].tempoPulsoAlvo;
      }
    }

    method RollbackVelocidades()
      requires Valid()
      modifies placa.Servos()`velTmpPulso
      ensures Valid()
      ensures forall i :: 0 <= i < 6 ==> servos[i].velTmpPulso == servosTemp[i].velTmpPulso
    {
      ServosDaPlaca();
      for i := 0 to 6
        invariant forall j :: 0 <= j < i ==> servos[j].velTmpPulso == servosTemp[j].velTmpPulso
      {
        servos[i].velTmpPulso := servosTemp[i].velTmpPulso;
      }
    }

    method RollbackAceleracoes()
      requires Valid()
      modifies placa.Servos()`acelTmpPulso
      ensures Valid()
      ensures forall i :: 0 <= i < 6 ==> servos[i].acelTmpPulso == servosTemp[i].acelTmpPulso
    {
      ServosDaPlaca();
      for i := 0 to 6
        invariant forall j :: 0 <= j < i ==> servos[j].acelTmpPulso == servosTemp[j].acelTmpPulso
      {
        servos[i].acelTmpPulso := servosTemp[i].acelTmpPulso;
      }
    }

    // -------------------------------------------------------------------
    // Replies

    /** RespostaComando: a line break, then the reply on its own line. */
    method RespostaComando(r: string)
      modifies this`saida
      ensures saida == old(saida) + Resposta(r)
    {
      saida := saida + [Linha("")];
      saida := saida + [Linha(r)];
    }

    /** EnviarFeedback: a line break, then the feedback with none after it. */
    method EnviarFeedback(f: string)
      modifies this`saida
      ensures saida == old(saida) + Feedback(f)
    {
      saida := saida + [Linha("")];
      saida := saida + [f];
    }

    // -------------------------------------------------------------------
    // Reception

    /** Takes the first character received, if any. */
    method GetCharBfRecebe() returns (c: string)
      modifies this`bfRecebe
      ensures old(bfRecebe) == [] ==> c == [] && bfRecebe == []
      ensures old(bfRecebe) != [] ==> c == [old(bfRecebe)[0]] && bfRecebe == old(bfRecebe)[1..]
    {
      if |bfRecebe| > 0 {
        c := bfRecebe[..1];
        bfRecebe := bfRecebe[1..];
        return;
      }
      return "";
    }

    /**
     * RecebeCaracteresDoProtocolo: one character received is echoed (when
     * echo is on) and taken into the frame being received.
     */
    method RecebeCaracteresDoProtocolo()
      requires Valid() && !dataReady
      modifies this`bfRecebe, this`bufferProto, this`flagProtocolo, this`dataReady, this`ultimoCharRecebido,
               this`saida
      ensures Valid()
      ensures old(bfRecebe) == [] ==> bfRecebe == [] && Rx() == old(Rx()) && saida == old(saida)
      ensures old(bfRecebe) != [] ==>
        var c := old(bfRecebe)[0];
        bfRecebe == old(bfRecebe)[1..] && Rx() == Receber(old(Rx()), c)
        && saida == old(saida) + (if ecoCaracteresAtivado then Eco(Normalizar(c), Rx().ultimo) else [])
    {
      var rChar := GetCharBfRecebe();
      if |rChar| > 0 {
        ReceberCaractere(rChar[0]);
      }
    }

    /** One character c0 received: normalised, echoed when echo is on, and framed. */
    method ReceberCaractere(c0: char)
      requires Valid() && !dataReady
      modifies this`bufferProto, this`flagProtocolo, this`dataReady, this`ultimoCharRecebido, this`saida
      ensures Valid()
      ensures Rx() == Receber(old(Rx()), c0)
      ensures saida == old(saida) + (if ecoCaracteresAtivado then Eco(Normalizar(c0), Rx().ultimo) else [])
    {
      ghost var r0 := Rx();
      var c := Normalizado(c0);
      Ecoar(c);
      Enquadrar(c, r0, c0);
      ReceberPreserva(r0, c0);
    }

    /** A received character c0 in upper case when it is a letter, a digit or a bracket, and then the last character received. */
    method Normalizado(c0: char) returns (c: char)
      modifies this`ultimoCharRecebido
      ensures c == Normalizar(c0)
      ensures ultimoCharRecebido == if LetraOuDigito(c0) || c0 == '[' || c0 == ']' then c else old(ultimoCharRecebido)
    {
      c := c0;
      if LetraOuDigito(c) || c == '[' || c == ']' {
        c := Maiuscula(c);
        ultimoCharRecebido := c;
      }
    }

    /** The echo of a received character c, already normalised, when echo is on. */
    method Ecoar(c: char)
      modifies this`saida
      ensures saida == old(saida) + (if ecoCaracteresAtivado then Eco(c, ultimoCharRecebido) else [])
    {
      if ecoCaracteresAtivado {
        if c == Backspace {
          saida := saida + [[c]];
          saida := saida + [" "];
          saida := saida + [[c]];
        } else if c == '?' {
          saida := saida + [[ultimoCharRecebido]];
        } else {
          saida := saida + [[c]];
        }
      }
    }

    /**
     * The framing of a received character c, the normalised c0, once the last
     * character received is updated: the reception fields become those of
     * Receber(r0, c0).
     */
    method Enquadrar(c: char, ghost r0: Recepcao, ghost c0: char)
      requires r0.emQuadro ==> |r0.buffer| >= 1
      requires c == Normalizar(c0) && Rx() == r0.(ultimo := Receber(r0, c0).ultimo)
      modifies this`bufferProto, this`flagProtocolo, this`dataReady
      ensures Rx() == Receber(r0, c0)
    {
      if !flagProtocolo && c == '[' {
        bufferProto := "[";
        flagProtocolo := true;
      } else if flagProtocolo && c != '?' {
        if c == Backspace {
          bufferProto := bufferProto[..|bufferProto| - 1];
          if |bufferProto| == 0 {
            flagProtocolo := false;
          }
        } else if c == ']' {
          bufferProto := bufferProto + [c];
          flagProtocolo := false;
          dataReady := true;
        } else if c == '[' {
          bufferProto := "[";
        } else {
          bufferProto := bufferProto + [c];
          if |bufferProto| >= TamanhoMaximo {
            flagProtocolo := false;
            dataReady := true;
          }
        }
      }
    }

    // -------------------------------------------------------------------
    // The servos' and channels' state as values

    /** The six servos' target pulse times, in us. */
    ghost function Alvos(): (a: seq<real>)
      requires |servos| == 6
      reads servos`tempoPulsoAlvo
      ensures |a| == 6 && forall i :: 0 <= i < 6 ==> a[i] == servos[i].tempoPulsoAlvo
    {
      [servos[0].tempoPulsoAlvo, servos[1].tempoPulsoAlvo, servos[2].tempoPulsoAlvo,
       servos[3].tempoPulsoAlvo, servos[4].tempoPulsoAlvo, servos[5].tempoPulsoAlvo]
    }

    /** The six servos' minimum and maximum pulse times, in us. */
    ghost function Minimos(): (m: seq<int>)
      requires |servos| == 6
      reads servos`tempoPulsoMin
      ensures |m| == 6 && forall i :: 0 <= i < 6 ==> m[i] == servos[i].tempoPulsoMin
    {
      [servos[0].tempoPulsoMin, servos[1].tempoPulsoMin, servos[2].tempoPulsoMin,
       servos[3].tempoPulsoMin, servos[4].tempoPulsoMin, servos[5].tempoPulsoMin]
    }

    ghost function Maximos(): (m: seq<int>)
      requires |servos| == 6
      reads servos`tempoPulsoMax
      ensures |m| == 6 && forall i :: 0 <= i < 6 ==> m[i] == servos[i].tempoPulsoMax
    {
      [servos[0].tempoPulsoMax, servos[1].tempoPulsoMax, servos[2].tempoPulsoMax,
       servos[3].tempoPulsoMax, servos[4].tempoPulsoMax, servos[5].tempoPulsoMax]
    }

    /** The configuration of servo i that the TMX .. ACL commands read and write. */
    function Parametros(i: int): ParametrosServo
      requires 0 <= i < |servos|
      reads servos[i]
    {
      var s := servos[i];
      ParametrosServo(s.tempoPulsoMax, s.tempoPulsoMin, s.tempoPulsoPosNeutra, s.tempoPulsoRepouso,
                      s.velTmpPulso, s.acelTmpPulso)
    }

    /**
     * The targets a total stop sends, in us. ParadaTotal passes each
     * channel's position as it reads it, in 0.25 us (four times where the
     * channel stands); the multi-servo feedback passes the position in us
     * (emMicros), which keeps the channel where it stands.
     */
    ghost function AlvosDaParada(emMicros: bool): (a: seq<real>)
      requires |placa.canais| == 6
      reads placa.canais
      ensures |a| == 6 && forall i :: 0 <= i < 6 ==> a[i] == AlvoDaParada(emMicros, placa.canais[i].position)
    {
      var ps := placa.Posicoes();
      [AlvoDaParada(emMicros, ps[0]), AlvoDaParada(emMicros, ps[1]), AlvoDaParada(emMicros, ps[2]),
       AlvoDaParada(emMicros, ps[3]), AlvoDaParada(emMicros, ps[4]), AlvoDaParada(emMicros, ps[5])]
    }

    /** The stop target, in us, for a channel read at posicao (0.25 us). */
    function AlvoDaParada(emMicros: bool, posicao: int): real
    {
      (if emMicros then EmMicros(posicao) else posicao) as real
    }

    /**
     * Channels primeiro .. primeiro+n-1 have had their targets set to
     * targets[i] us as SetTarget sets them; every other channel and its servo
     * are as they were.
     */
    twostate predicate AlvosAplicados(primeiro: int, n: int, targets: seq<real>)
      requires Ligados() && 0 <= primeiro && 0 <= n && primeiro + n <= 6 && |targets| >= primeiro + n
      reads placa, placa.Canais(), placa.Servos()
    {
      (forall i :: primeiro <= i < primeiro + n ==>
         placa.AlvoAplicado(i, old(placa.canais[i].Atual()), old(placa.PulsoDoCanal(i)), targets[i]))
      && (forall i :: 0 <= i < 6 && !(primeiro <= i < primeiro + n) ==>
            placa.canais[i].Atual() == old(placa.canais[i].Atual()) && placa.PulsoDoCanal(i) == old(placa.PulsoDoCanal(i))
            && placa.canais[i].servo.tempoPulsoAlvo == old(placa.canais[i].servo.tempoPulsoAlvo))
    }

    /**
     * The board is moving when it was or when one of channels primeiro ..
     * primeiro+n-1 started a motion on getting its target from targets.
     */
    twostate predicate MovimentoIniciado(primeiro: int, n: int, targets: seq<real>)
      requires Ligados() && 0 <= primeiro && 0 <= n && primeiro + n <= 6 && |targets| >= primeiro + n
      reads placa, placa.Canais()
    {
      placa.movingState
      == if exists i :: primeiro <= i < primeiro + n
                        && SetarTargetSpec(old(placa.canais[i].Atual()), Quartos(targets[i])).moveu
         then 1 else old(placa.movingState)
    }

    /**
     * AlvosAplicados and MovimentoIniciado for channels primeiro .. 5 and
     * the old target pulses, restated over the old channels' states, servo
     * readings and servo target pulses as values.
     */
    twostate lemma AplicadosDesde(primeiro: int)
      requires Ligados() && 0 <= primeiro <= 6
      requires AlvosAplicados(primeiro, 6 - primeiro, old(Alvos())) && MovimentoIniciado(primeiro, 6 - primeiro, old(Alvos()))
      ensures placa.Alvejados(primeiro, 6, old(Alvos()), old(placa.Estados()), old(placa.Pulsos()), old(placa.AlvosDosServos()))
      ensures placa.movingState == if AlgumMoveu(primeiro, 6, old(placa.Estados()), old(Alvos())) then 1 else old(placa.movingState)
    {
    }

    // -------------------------------------------------------------------
    // Speeds and accelerations of the channels

    /** Sets every channel's speed, channel i to vels[i]. */
    method DefinirVelocidades(vels: seq<int>)
      requires Valid() && |vels| == 6
      modifies placa.Canais()`speed
      ensures Valid()
      ensures forall i :: 0 <= i < 6 ==> placa.canais[i].speed == vels[i]
    {
      ServosDaPlaca();
      for canal := 0 to 6
        invariant forall j :: 0 <= j < canal ==> placa.canais[j].speed == vels[j]
      {
        var ok := placa.SetSpeed(canal, vels[canal]);
      }
    }

    /** Sets every channel's acceleration, then its speed, channel i to acels[i] and vels[i]. */
    method DefinirAceleracoesEVelocidades(acels: seq<int>, vels: seq<int>)
      requires Valid() && |acels| == 6 && |vels| == 6
      modifies placa.Canais()`speed, placa.Canais()`acceleration
      ensures Valid()
      ensures forall i :: 0 <= i < 6 ==> placa.canais[i].acceleration == acels[i] && placa.canais[i].speed == vels[i]
    {
      ServosDaPlaca();
      for canal := 0 to 6
        invariant forall j :: 0 <= j < canal ==>
          placa.canais[j].acceleration == acels[j] && placa.canais[j].speed == vels[j]
      {
        var ok := placa.SetAcceleration(canal, acels[canal]);
        ok := placa.SetSpeed(canal, vels[canal]);
      }
    }

    /** The speeds and accelerations configured in the servos. */
    function Velocidades(): (v: seq<int>)
      requires |servos| == 6
      reads servos`velTmpPulso
      ensures |v| == 6 && forall i :: 0 <= i < 6 ==> v[i] == servos[i].velTmpPulso
    {
      [servos[0].velTmpPulso, servos[1].velTmpPulso, servos[2].velTmpPulso,
       servos[3].velTmpPulso, servos[4].velTmpPulso, servos[5].velTmpPulso]
    }

    function Aceleracoes(): (a: seq<int>)
      requires |servos| == 6
      reads servos`acelTmpPulso
      ensures |a| == 6 && forall i :: 0 <= i < 6 ==> a[i] == servos[i].acelTmpPulso
    {
      [servos[0].acelTmpPulso, servos[1].acelTmpPulso, servos[2].acelTmpPulso,
       servos[3].acelTmpPulso, servos[4].acelTmpPulso, servos[5].acelTmpPulso]
    }

    // -------------------------------------------------------------------
    // End of a servo command: stop, speeds back, record cleared

    /** ResetaVariaveisDeFeedBack: no servo command in flight any more. */
    method ResetaVariaveisDeFeedBack()
      requires Valid()
      modifies this`tipoCmdMovServosPorQt, this`ultCmdMovServos, this`canalCmd1ServoNaoBloq
      ensures Valid() && Registro() == Resetado(old(Registro()))
    {
      tipoCmdMovServosPorQt := Nenhum;
      ultCmdMovServos := CmdNone;
      canalCmd1ServoNaoBloq := CanalIndefinido;
    }

    /**
     * ParadaTotal: every channel's target is set to the position the board
     * reports for it, which is in 0.25 us where SetTarget takes us, so each
     * channel is sent to four times where it stands, clamped to its maximum
     * (AlvoDaParadaComoEscrita).
     */
    method ParadaTotal()
      requires Valid()
      modifies placa`conta80ms, placa`movingState, placa.Canais(), placa.Servos()`tempoPulsoCorrente,
               placa.Servos()`anguloCorrente, placa.Servos()`tempoPulsoAlvo
      ensures Valid()
      ensures AlvosAplicados(0, 6, old(AlvosDaParada(false)))
      ensures old(placa.movingState) == 1 ==> placa.movingState == 1
    {
      ghost var e0, p0, a0 := placa.Estados(), placa.Pulsos(), placa.AlvosDosServos();
      ghost var alvos := AlvosDaParada(false);
      PararCanais(false, alvos, e0, p0, a0);
    }

    /** The loop of a total stop, the targets in us when emMicros. */
    method PararCanais(emMicros: bool, ghost alvos: seq<real>, ghost e0: seq<Estado>, ghost p0: seq<Pulso>,
                       ghost a0: seq<real>)
      requires placa.Valid() && Ligados() && placa.Alvejados(0, 0, alvos, e0, p0, a0)
      requires |alvos| == 6 && forall j :: 0 <= j < 6 ==> alvos[j] == AlvoDaParada(emMicros, e0[j].position)
      modifies placa`conta80ms, placa`movingState, placa.Canais(), placa.Servos()`tempoPulsoCorrente,
               placa.Servos()`anguloCorrente, placa.Servos()`tempoPulsoAlvo
      ensures placa.Valid() && placa.Alvejados(0, 6, alvos, e0, p0, a0)
      ensures placa.movingState
        == if exists j :: 0 <= j < 6 && SetarTargetSpec(e0[j], Quartos(alvos[j])).moveu then 1 else old(placa.movingState)
    {
      ServosDaPlaca();
      for canal := 0 to 6
        invariant placa.Valid()
        invariant placa.Alvejados(0, canal, alvos, e0, p0, a0)
        invariant placa.movingState
          == if exists j :: 0 <= j < canal && SetarTargetSpec(e0[j], Quartos(alvos[j])).moveu then 1 else old(placa.movingState)
      {
        PararCanal(emMicros, canal, alvos, e0, p0, a0);
      }
    }

    /**
     * The body of the loop of a total stop for one channel, which has not
     * been touched yet: its target set to the position read, taken as us
     * when emMicros and as it is read otherwise.
     */
    method PararCanal(emMicros: bool, canal: int, ghost alvos: seq<real>, ghost e0: seq<Estado>, ghost p0: seq<Pulso>,
                      ghost a0: seq<real>)
      requires placa.Valid() && 0 <= canal < 6 && placa.Alvejados(0, canal, alvos, e0, p0, a0)
      requires |alvos| == 6 && alvos[canal] == AlvoDaParada(emMicros, e0[canal].position)
      modifies placa`conta80ms, placa`movingState, placa.canais[canal], placa.canais[canal].servo`tempoPulsoCorrente,
               placa.canais[canal].servo`anguloCorrente, placa.canais[canal].servo`tempoPulsoAlvo
      ensures placa.Valid() && placa.Alvejados(0, canal + 1, alvos, e0, p0, a0)
      ensures placa.movingState == if SetarTargetSpec(e0[canal], Quartos(alvos[canal])).moveu then 1 else old(placa.movingState)
    {
      var posicao := placa.GetPosition(canal);
      var alvo := if emMicros then EmMicros(posicao) as real else posicao as real;
      assert alvo == alvos[canal];
      placa.SetTarget(canal, alvo);
    }

    /** RetomarVelocidadesAposParadaTotal1Servo: after a total stop, the servos' speeds back in their channels. */
    method RetomarVelocidadesAposParadaTotal1Servo()
      requires Valid()
      modifies this`paradaTotalSolicitada, placa.Canais()`speed
      ensures Valid() && !paradaTotalSolicitada
      ensures forall i :: 0 <= i < 6 ==>
        placa.canais[i].speed == if old(paradaTotalSolicitada) then servos[i].velTmpPulso else old(placa.canais[i].speed)
    {
      if paradaTotalSolicitada {
        paradaTotalSolicitada := false;
        DefinirVelocidades(Velocidades());
      }
    }
    // -------------------------------------------------------------------
    // Decoding: LED and PRT

    /**
     * LED: a 13-character frame sets the eight LEDs, LED 7-i from character
     * 4+i, and is echoed as received (RespostaLedComoEscrita); a 5-character
     * frame rewrites the frame with the LEDs' states and echoes it; any
     * other frame gets a NAK.
     */
    method ComandoLed()
      requires Valid() && dataReady && QuadroDoComando(bufferProto, "LED")
      modifies this`bufferLeds, this`bufferProto, this`saida
      ensures Valid() && dataReady
      ensures var b := old(bufferProto);
        if |b| == 13 then
          b[..4] == "[LED" && b[12] == ']' && bufferLeds == LedsDoQuadro(b) && bufferProto == b
          && saida == old(saida) + Resposta(RespostaLedComoEscrita(b))
        else if |b| == 5 then
          bufferLeds == old(bufferLeds) && bufferProto == QuadroDosLeds(bufferLeds)
          && saida == old(saida) + Resposta(bufferProto)
        else
          bufferLeds == old(bufferLeds) && bufferProto == b && saida == old(saida) + Resposta(Nak("LED"))
    {
      var b := bufferProto;
      if |b| == 13 {
        assert b[..4] == "[LED" by {
          assert b[..4] == [b[0]] + b[1..4];
        }
        AjustarLeds(b);
        RespostaComando(bufferProto);
      } else if |b| == 5 {
        var q := LerLeds();
        bufferProto := q;
        RespostaComando(bufferProto);
      } else {
        RespostaComando(Nak("LED"));
      }
    }

    /**
     * The loop of the LED set frame b: each LED from its character, off for
     * any character other than '0' and '1'. The string such a character's
     * Replace returns is dropped, so the frame is left as it is.
     */
    method AjustarLeds(b: string)
      requires |b| == 13 && |bufferLeds| == 8
      modifies this`bufferLeds
      ensures bufferLeds == LedsDoQuadro(b)
    {
      for i := 0 to 8
        invariant |bufferLeds| == 8
        invariant forall k :: 4 <= k < 4 + i ==> bufferLeds[11 - k] == (b[k] == '1')
      {
        var c := b[i + 4];
        if c == '0' || c == '1' {
          bufferLeds := bufferLeds[7 - i := c == '1'];
        } else {
          bufferLeds := bufferLeds[7 - i := false];
        }
      }
      assert forall j :: 0 <= j < 8 ==> bufferLeds[j] == bufferLeds[11 - (11 - j)];
    }

    /** The frame reporting the LEDs, LED 7 first, built one character at a time. */
    method LerLeds() returns (q: string)
      requires |bufferLeds| == 8
      ensures q == QuadroDosLeds(bufferLeds)
    {
      q := "[LED";
      for i := 0 to 8
        invariant |q| == 4 + i && q[..4] == "[LED"
        invariant forall k :: 4 <= k < 4 + i ==> q[k] == if bufferLeds[11 - k] then '1' else '0'
      {
        q := q + [if bufferLeds[7 - i] then '1' else '0'];
      }
      q := q + "]";
      var r := QuadroDosLeds(bufferLeds);
      assert forall k :: 0 <= k < 4 ==> r[k] == r[..4][k] && q[k] == q[..4][k];
    }

    /**
     * PRT: while the board is moving, every channel's speed is set to 1 and
     * a total stop is requested; otherwise the reply is [PRT OK].
     */
    method ComandoPrt()
      requires Valid()
      modifies this`paradaTotalSolicitada, placa.Canais()`speed, this`saida
      ensures Valid()
      ensures old(placa.movingState) == 1 ==>
        paradaTotalSolicitada && saida == old(saida) && forall i :: 0 <= i < 6 ==> placa.canais[i].speed == 1
      ensures old(placa.movingState) != 1 ==>
        paradaTotalSolicitada == old(paradaTotalSolicitada) && saida == old(saida) + Resposta("[PRT OK]")
        && forall i :: 0 <= i < 6 ==> placa.canais[i].speed == old(placa.canais[i].speed)
    {
      var ms := placa.GetMovingState();
      if ms == 1 {
        paradaTotalSolicitada := true;
        DefinirVelocidades([1, 1, 1, 1, 1, 1]);
      } else {
        RespostaComando("[PRT OK]");
      }
    }

    // -------------------------------------------------------------------
    // Decoding: one-servo commands (GA, GF, CTZ)

    /**
     * Channel canal has had its target set to alvo us as SetTarget sets it;
     * every other channel and its servo are as they were; the board is
     * moving when it was or when this channel started a motion.
     */
    twostate predicate AlvoDoCanalAplicado(canal: int, alvo: real)
      requires Ligados() && 0 <= canal < 6
      reads placa, placa.Canais(), placa.Servos()
    {
      placa.AlvoAplicado(canal, old(placa.canais[canal].Atual()), old(placa.PulsoDoCanal(canal)), alvo)
      && (forall j :: 0 <= j < 6 && j != canal ==>
            placa.canais[j].Atual() == old(placa.canais[j].Atual()) && placa.PulsoDoCanal(j) == old(placa.PulsoDoCanal(j))
            && placa.canais[j].servo.tempoPulsoAlvo == old(placa.canais[j].servo.tempoPulsoAlvo))
      && placa.movingState
         == if SetarTargetSpec(old(placa.canais[canal].Atual()), Quartos(alvo)).moveu then 1 else old(placa.movingState)
    }

    /**
     * A one-servo command cmd on channel canal: the servo's target pulse set
     * to alvo us and sent to the board, and the in-flight record updated.
     */
    method AcionarUmServo(canal: int, alvo: real, cmd: ComandoProto)
      requires Valid() && 0 <= canal < 6
      modifies placa`conta80ms, placa`movingState, placa.canais[canal], {servos[canal]}`tempoPulsoCorrente,
               {servos[canal]}`anguloCorrente, {servos[canal]}`tempoPulsoAlvo,
               this`tipoCmdMovServosPorQt, this`ultCmdMovServos, this`strUltCmdMovServos, this`canalCmd1ServoNaoBloq
      ensures Valid()
      ensures AlvoDoCanalAplicado(canal, alvo)
      ensures Registro() == RegistrarUm(old(Registro()), canal, cmd, MnemonicoDe(cmd))
    {
      RegistrarComandoUm(canal, cmd);
      MoverServo(canal, alvo);
    }

    /** The servo of channel canal given target pulse alvo us, which is sent to the board. */
    method MoverServo(canal: int, alvo: real)
      requires placa.Valid() && Ligados() && 0 <= canal < 6
      modifies placa`conta80ms, placa`movingState, placa.canais[canal], {servos[canal]}`tempoPulsoCorrente,
               {servos[canal]}`anguloCorrente, {servos[canal]}`tempoPulsoAlvo
      ensures placa.Valid() && AlvoDoCanalAplicado(canal, alvo)
    {
      servos[canal].tempoPulsoAlvo := alvo;
      placa.SetTarget(canal, servos[canal].tempoPulsoAlvo);
    }

    /**
     * The in-flight record after a one-servo command cmd on channel canal:
     * unchanged while a multi-servo command is in flight, a multi-servo JST
     * when another channel's command is in flight, otherwise cmd on canal.
     */
    method RegistrarComandoUm(canal: int, cmd: ComandoProto)
      requires Valid() && 0 <= canal < 6
      modifies this`tipoCmdMovServosPorQt, this`ultCmdMovServos, this`strUltCmdMovServos, this`canalCmd1ServoNaoBloq
      ensures Valid() && Registro() == RegistrarUm(old(Registro()), canal, cmd, MnemonicoDe(cmd))
    {
      if tipoCmdMovServosPorQt != Varios {
        if canalCmd1ServoNaoBloq != canal && canalCmd1ServoNaoBloq != CanalIndefinido {
          tipoCmdMovServosPorQt, ultCmdMovServos, strUltCmdMovServos, canalCmd1ServoNaoBloq
            := Varios, CmdJST, "JST", CanalIndefinido;
        } else {
          ultCmdMovServos, strUltCmdMovServos, tipoCmdMovServosPorQt, canalCmd1ServoNaoBloq
            := cmd, MnemonicoDe(cmd), ApenasUm, canal;
        }
      }
    }

    /** GA and GF: the gripper (servo 5) sent to its maximum (open) or minimum (closed) pulse. */
    method ComandoGarra(cmd: ComandoProto)
      requires Valid() && (cmd == CmdGA || cmd == CmdGF)
      modifies this`comando, placa`conta80ms, placa`movingState, placa.canais[5], {servos[5]}`tempoPulsoCorrente,
               {servos[5]}`anguloCorrente, {servos[5]}`tempoPulsoAlvo,
               this`tipoCmdMovServosPorQt, this`ultCmdMovServos, this`strUltCmdMovServos, this`canalCmd1ServoNaoBloq
      ensures Valid() && comando == cmd
      ensures AlvoDoCanalAplicado(5, old(if cmd == CmdGA then servos[5].tempoPulsoMax else servos[5].tempoPulsoMin) as real)
      ensures Registro() == RegistrarUm(old(Registro()), 5, cmd, MnemonicoDe(cmd))
    {
      comando := cmd;
      var alvo := if cmd == CmdGA then servos[5].tempoPulsoMax else servos[5].tempoPulsoMin;
      AcionarUmServo(5, alvo as real, cmd);
    }

    /**
     * CTZ: a frame of a length other than 7 gets a NAK, and the joint is
     * read from it all the same (CtzComoEscrito): a frame naming a joint or
     * the gripper sends that servo to its neutral pulse, any other gets a
     * JNT NAK and moves nothing.
     */
    method ComandoCtz()
      requires Valid() && dataReady && QuadroDoComando(bufferProto, "CTZ")
      modifies this`saida, placa`conta80ms, placa`movingState, placa.Canais(), placa.Servos()`tempoPulsoCorrente,
               placa.Servos()`anguloCorrente, placa.Servos()`tempoPulsoAlvo,
               this`tipoCmdMovServosPorQt, this`ultCmdMovServos, this`strUltCmdMovServos, this`canalCmd1ServoNaoBloq
      ensures Valid() && QuadroSelecionavel(old(bufferProto))
      ensures var a := CtzComoEscrito(old(bufferProto));
        saida == old(saida) + a.respostas
        && (a.canal >= 0 ==>
              AlvoDoCanalAplicado(a.canal, old(servos[a.canal].tempoPulsoPosNeutra) as real)
              && Registro() == RegistrarUm(old(Registro()), a.canal, CmdCTZ, "CTZ"))
        && (a.canal < 0 ==> Registro() == old(Registro()) && unchanged(placa, placa.Canais(), placa.Servos()))
    {
      var b := bufferProto;
      SelecionavelDoComando(b, "CTZ");
      if |b| != 7 {
        RespostaComando(Nak("CTZ"));
      }
      var s := Selecionar(b);
      if s.Junta? {
        CentrarServo(s.indice);
      } else {
        RespostaComando(JntNak);
      }
    }

    /** The servo of channel canal sent to its neutral pulse by CTZ. */
    method CentrarServo(canal: int)
      requires Valid() && 0 <= canal < 6
      modifies placa`conta80ms, placa`movingState, placa.Canais(), placa.Servos()`tempoPulsoCorrente,
               placa.Servos()`anguloCorrente, placa.Servos()`tempoPulsoAlvo,
               this`tipoCmdMovServosPorQt, this`ultCmdMovServos, this`strUltCmdMovServos, this`canalCmd1ServoNaoBloq
      ensures Valid()
      ensures AlvoDoCanalAplicado(canal, old(servos[canal].tempoPulsoPosNeutra) as real)
      ensures Registro() == RegistrarUm(old(Registro()), canal, CmdCTZ, "CTZ")
    {
      ServosDaPlaca();
      AcionarUmServo(canal, servos[canal].tempoPulsoPosNeutra as real, CmdCTZ);
    }

    // -------------------------------------------------------------------
    // Decoding: multi-servo commands (JST, RPS, DSL)

    /**
     * The servos' target pulses targets sent to channels primeiro ..
     * primeiro+n-1, and the multi-servo command cmd recorded in flight.
     */
    method AcionarVarios(n: int, primeiro: int, targets: seq<real>, cmd: ComandoProto)
      requires Valid() && 0 <= primeiro && 0 <= n && primeiro + n <= 6 && |targets| == 6
      modifies placa`conta80ms, placa`movingState, placa.Canais(), placa.Servos()`tempoPulsoCorrente,
               placa.Servos()`anguloCorrente, placa.Servos()`tempoPulsoAlvo,
               this`tipoCmdMovServosPorQt, this`ultCmdMovServos, this`strUltCmdMovServos, this`canalCmd1ServoNaoBloq
      ensures Valid()
      ensures AlvosAplicados(primeiro, n, targets) && MovimentoIniciado(primeiro, n, targets)
      ensures Registro() == RegistrarVarios(old(Registro()), cmd, MnemonicoDe(cmd))
      ensures saida == old(saida)
    {
      placa.SetMultipleTargets(n, primeiro, targets);
      ultCmdMovServos, strUltCmdMovServos := cmd, MnemonicoDe(cmd);
      tipoCmdMovServosPorQt, canalCmd1ServoNaoBloq := Varios, CanalIndefinido;
    }

    /**
     * JST's work on servo indice for the group at position ordem of the
     * frame: a set frame (at least 10 characters, a multiple of 5) gives the
     * servo the group's four digits as target pulse, clamped into its range
     * unless zero, and fails when they are not four digits; when it does not
     * fail, the servo's letter and target pulse are appended to the reply.
     */
    method JstDoServo(ordem: int, indice: int) returns (ok: bool)
      requires ServosDistintos() && 0 <= ordem && 0 <= indice < 6
      requires |bufferProto| >= 10 && |bufferProto| % 5 == 0 ==> 9 + 5 * ordem <= |bufferProto|
      modifies this`resposta, {servos[indice]}`tempoPulsoAlvo
      ensures var b, s := bufferProto, servos[indice];
        if |b| >= 10 && |b| % 5 == 0 then
          ok == Digitos4(b, 5 + 5 * ordem)
          && Alvos()
             == if ok then old(Alvos())[indice := LimitarJst(Valor4(b, 5 + 5 * ordem), s.tempoPulsoMin, s.tempoPulsoMax) as real]
                else old(Alvos())
        else ok && Alvos() == old(Alvos())
      ensures Minimos() == old(Minimos()) && Maximos() == old(Maximos())
      ensures resposta == if ok then old(resposta) + servos[indice].idJST + FormataReal(Alvos()[indice]) else old(resposta)
    {
      var b, s := bufferProto, servos[indice];
      if |b| >= 10 && |b| % 5 == 0 {
        ok := AjustarAlvoJst(5 * ordem, indice);
        if !ok {
          return;
        }
      }
      AnexarAlvoJst(indice);
      return true;
    }

    /** The end of the JST helper: servo indice's letter and target pulse, in whole us, appended to the reply. */
    method AnexarAlvoJst(indice: int)
      requires |servos| == 6 && 0 <= indice < 6
      modifies this`resposta
      ensures resposta == old(resposta) + servos[indice].idJST + FormataReal(servos[indice].tempoPulsoAlvo)
    {
      resposta := resposta + servos[indice].idJST + FormataReal(servos[indice].tempoPulsoAlvo);
    }

    /**
     * The set part of JST's work on servo indice: the four characters from
     * 5+index on, when they are digits, give the servo its target pulse,
     * clamped into its range unless zero.
     */
    method AjustarAlvoJst(index: int, indice: int) returns (ok: bool)
      requires ServosDistintos() && 0 <= index && index + 9 <= |bufferProto| && 0 <= indice < 6
      modifies {servos[indice]}`tempoPulsoAlvo
      ensures var b, s := bufferProto, servos[indice];
        ok == Digitos4(b, 5 + index)
        && Alvos()
           == if ok then old(Alvos())[indice := LimitarJst(Valor4(b, 5 + index), s.tempoPulsoMin, s.tempoPulsoMax) as real]
              else old(Alvos())
      ensures Minimos() == old(Minimos()) && Maximos() == old(Maximos())
    {
      ghost var a0 := Alvos();
      var b, s := bufferProto, servos[indice];
      if Digito(b[5 + index]) && Digito(b[6 + index]) && Digito(b[7 + index]) && Digito(b[8 + index]) {
        var valor := 1000 * (b[5 + index] as int - '0' as int) + 100 * (b[6 + index] as int - '0' as int)
                     + 10 * (b[7 + index] as int - '0' as int) + (b[8 + index] as int - '0' as int);
        if valor != 0 {
          if valor > s.tempoPulsoMax { valor := s.tempoPulsoMax; }
          if valor < s.tempoPulsoMin { valor := s.tempoPulsoMin; }
        }
        s.tempoPulsoAlvo := valor as real;
        ok := true;
        assert Alvos() == a0[indice := valor as real] by {
          forall j | 0 <= j < 6
            ensures Alvos()[j] == a0[indice := valor as real][j]
          {
          }
        }
      } else {
        ok := false;
      }
    }

    /**
     * [JST]: the reply lists every servo's letter and target pulse in whole
     * us, servo 0 first. The source goes through the JST helper for each
     * servo, whose set branch a 5-character frame never takes, so only the
     * helper's reply part is called here.
     */
    method JstConsulta()
      requires Valid() && Identificados(servos)
      modifies this`resposta, this`saida
      ensures Valid()
      ensures resposta == QuadroJst(AlvosJst(Alvos())) && saida == old(saida) + Resposta(resposta)
    {
      resposta := "[JST";
      ListarAlvosJst();
      resposta := resposta + "]";
      RespostaComando(resposta);
    }

    /** The loop of [JST]: each servo's letter and target pulse appended to the reply. */
    method ListarAlvosJst()
      requires Identificados(servos)
      modifies this`resposta
      ensures resposta == old(resposta) + AlvosJst(Alvos())
    {
      ghost var a := Alvos();
      for i := 0 to 6
        invariant resposta == old(resposta) + AlvosJst(a[..i])
      {
        AnexarAlvoJst(i);
        AlvosJstPasso(old(resposta), a, i);
      }
      assert a[..6] == a;
    }

    /**
     * [JST<J>]: the reply names servo J and its target pulse in whole us; a
     * letter naming no servo gets [JNT NAK]. As for [JST], only the reply
     * part of the JST helper is taken.
     */
    method JstUmServo()
      requires Valid() && Identificados(servos) && |bufferProto| == 6
      modifies this`resposta, this`saida
      ensures Valid()
      ensures var k := ServoJst(bufferProto[4]);
        if k >= 0 then
          resposta == QuadroJst(IdJst(k) + FormataReal(Alvos()[k])) && saida == old(saida) + Resposta(resposta)
        else
          resposta == old(resposta) && saida == old(saida) + Resposta(JntNak)
    {
      var l := bufferProto[4];
      if 'A' <= l <= 'E' || l == 'G' {
        var idx := if l == 'G' then 5 else l as int - 'A' as int;
        resposta := "[JST";
        AnexarAlvoJst(idx);
        resposta := resposta + "]";
        QuadroJstDeUm(servos[idx].idJST, FormataReal(servos[idx].tempoPulsoAlvo));
        RespostaComando(resposta);
      } else {
        RespostaComando(JntNak);
      }
    }

    /**
     * The loop over the groups of a JST set frame: the servos' target
     * pulses, the group counter (7 once a group is refused) and the lowest
     * joint named are those AplicarJst gives.
     */
    method JstGrupos() returns (i: int, primeiro: int)
      requires Ligados() && FrameJstAjuste(bufferProto)
      modifies this`resposta, placa.Servos()`tempoPulsoAlvo
      ensures var r := old(AplicarJst(bufferProto, Alvos(), Minimos(), Maximos(), 0, 5));
        Alvos() == r.alvos && i == r.i && primeiro == r.primeiro && 0 <= primeiro <= 5
      ensures i <= 6 ==> forall j :: 0 <= j < primeiro ==> Alvos()[j] == old(Alvos())[j]
    {
      ServosDaPlaca();
      var b := bufferProto;
      ghost var a, mins, maxs := Alvos(), Minimos(), Maximos();
      ghost var r0 := AplicarJst(b, a, mins, maxs, 0, 5);
      JstAbaixoDoPrimeiro(b, a, mins, maxs, 0, 5);
      i, primeiro := 0, 5;
      resposta := "[JST";
      while i < 6 && 4 + 5 * i < |b| - 1
        invariant ServosDistintos() && 0 <= i <= 7 && 0 <= primeiro <= 5
        invariant Alvos() == a && Minimos() == mins && Maximos() == maxs
        invariant i <= 6 ==> AplicarJst(b, a, mins, maxs, i, primeiro) == r0
        invariant i == 7 ==> r0 == Jst(a, 7, primeiro)
        decreases 7 - i
      {
        i, primeiro, a := GrupoJst(i, primeiro, a, mins, maxs);
      }
      resposta := resposta + "]";
    }

    /**
     * The body of the loop over the groups of a JST set frame for group i:
     * the counter moves to the next group, or to 7 when the group is refused,
     * as AplicarJst goes from one group to the next.
     */
    method GrupoJst(i: int, primeiro: int, ghost a: seq<real>, ghost mins: seq<int>, ghost maxs: seq<int>)
      returns (i': int, primeiro': int, ghost a': seq<real>)
      requires ServosDistintos() && FrameJstAjuste(bufferProto) && 0 <= i < 6 && 4 + 5 * i < |bufferProto| - 1
      requires 0 <= primeiro <= 5 && Alvos() == a && Minimos() == mins && Maximos() == maxs
      modifies this`resposta, servos`tempoPulsoAlvo
      ensures i < i' <= 7 && 0 <= primeiro' <= 5 && Alvos() == a' && Minimos() == mins && Maximos() == maxs
      ensures i' <= 6 ==> AplicarJst(bufferProto, a, mins, maxs, i, primeiro) == AplicarJst(bufferProto, a', mins, maxs, i', primeiro')
      ensures i' == 7 ==> AplicarJst(bufferProto, a, mins, maxs, i, primeiro) == Jst(a', 7, primeiro')
    {
      var b := bufferProto;
      JstPasso(b, a, mins, maxs, i, primeiro);
      i', primeiro', a' := i, primeiro, a;
      var l := b[4 + 5 * i];
      if 'A' <= l <= 'E' || l == 'G' {
        var idx := if l == 'G' then 5 else l as int - 'A' as int;
        if l != 'G' && primeiro' > idx {
          primeiro' := idx;
        }
        var ok := JstDoServo(i, idx);
        a' := Alvos();
        if !ok {
          i' := 6;
        }
      } else {
        i' := 6;
      }
      i' := i' + 1;
    }

    /**
     * [JST<J><tttt>...]: each group gives its servo a target pulse. A group
     * naming no servo or without four digits refuses the frame with a NAK,
     * the groups before it applied. Otherwise the channels from the lowest
     * joint named (5 when only the gripper is) on get the servos' target
     * pulses, and JST is recorded in flight.
     */
    method JstAjustar()
      requires Valid() && FrameJstAjuste(bufferProto)
      modifies this`resposta, this`saida, placa`conta80ms, placa`movingState, placa.Canais(),
               placa.Servos()`tempoPulsoCorrente, placa.Servos()`anguloCorrente, placa.Servos()`tempoPulsoAlvo,
               this`tipoCmdMovServosPorQt, this`ultCmdMovServos, this`strUltCmdMovServos, this`canalCmd1ServoNaoBloq
      ensures Valid()
      ensures var r := old(AplicarJst(bufferProto, Alvos(), Minimos(), Maximos(), 0, 5));
        if r.i == 7 then
          Alvos() == r.alvos && saida == old(saida) + Resposta(Nak("JST")) && Registro() == old(Registro())
          && unchanged(placa, placa.Canais())
        else
          0 <= r.primeiro <= 5
          && placa.Alvejados(r.primeiro, 6, r.alvos, old(placa.Estados()), old(placa.Pulsos()), old(placa.AlvosDosServos()))
          && placa.movingState == (if AlgumMoveu(r.primeiro, 6, old(placa.Estados()), r.alvos) then 1 else old(placa.movingState))
          && saida == old(saida) && Registro() == RegistrarVarios(old(Registro()), CmdJST, MnemonicoDe(CmdJST))
    {
      ServosDaPlaca();
      ghost var r := AplicarJst(bufferProto, Alvos(), Minimos(), Maximos(), 0, 5);
      ghost var e0, p0, a0 := placa.Estados(), placa.Pulsos(), placa.AlvosDosServos();
      var i, primeiro := JstGrupos();
      assert Alvos() == r.alvos && i == r.i && primeiro == r.primeiro;
      TerminarJst(i, primeiro, e0, p0, a0);
    }

    /**
     * The end of JST once its groups are applied: a refused frame (i beyond
     * 6) gets a NAK and nothing moves; otherwise channels primeiro .. 5 get
     * the servos' target pulses, stated against the snapshots e0, p0, a0
     * taken before the groups were applied.
     */
    method TerminarJst(i: int, primeiro: int, ghost e0: seq<Estado>, ghost p0: seq<Pulso>, ghost a0: seq<real>)
      requires Valid() && 0 <= primeiro <= 5 && |a0| == 6
      requires placa.Estados() == e0 && placa.Pulsos() == p0
      requires i <= 6 ==> forall j :: 0 <= j < primeiro ==> placa.canais[j].servo.tempoPulsoAlvo == a0[j]
      modifies this`saida, placa`conta80ms, placa`movingState, placa.Canais(), placa.Servos()`tempoPulsoCorrente,
               placa.Servos()`anguloCorrente, placa.Servos()`tempoPulsoAlvo,
               this`tipoCmdMovServosPorQt, this`ultCmdMovServos, this`strUltCmdMovServos, this`canalCmd1ServoNaoBloq
      ensures Valid()
      ensures i > 6 ==>
        Alvos() == old(Alvos()) && saida == old(saida) + Resposta(Nak("JST")) && Registro() == old(Registro())
        && unchanged(placa, placa.Canais())
      ensures i <= 6 ==>
        placa.Alvejados(primeiro, 6, old(Alvos()), e0, p0, a0)
        && placa.movingState == (if AlgumMoveu(primeiro, 6, e0, old(Alvos())) then 1 else old(placa.movingState))
        && Registro() == RegistrarVarios(old(Registro()), CmdJST, MnemonicoDe(CmdJST)) && saida == old(saida)
    {
      if i > 6 {
        RespostaComando(Nak("JST"));
      } else {
        AcionarJst(primeiro, e0, p0, a0);
      }
    }


    /**
     * The accepted end of JST: channels primeiro .. 5 get the servos' target
     * pulses, stated against the snapshots e0, p0, a0 taken before the
     * groups were applied, and JST is recorded in flight.
     */
    method AcionarJst(primeiro: int, ghost e0: seq<Estado>, ghost p0: seq<Pulso>, ghost a0: seq<real>)
      requires Valid() && 0 <= primeiro <= 5 && |a0| == 6
      requires placa.Estados() == e0 && placa.Pulsos() == p0
      requires forall j :: 0 <= j < primeiro ==> placa.canais[j].servo.tempoPulsoAlvo == a0[j]
      modifies placa`conta80ms, placa`movingState, placa.Canais(), placa.Servos()`tempoPulsoCorrente,
               placa.Servos()`anguloCorrente, placa.Servos()`tempoPulsoAlvo,
               this`tipoCmdMovServosPorQt, this`ultCmdMovServos, this`strUltCmdMovServos, this`canalCmd1ServoNaoBloq
      ensures Valid()
      ensures placa.Alvejados(primeiro, 6, old(Alvos()), e0, p0, a0)
      ensures placa.movingState == if AlgumMoveu(primeiro, 6, e0, old(Alvos())) then 1 else old(placa.movingState)
      ensures Registro() == RegistrarVarios(old(Registro()), CmdJST, MnemonicoDe(CmdJST)) && saida == old(saida)
    {
      var targets := [servos[0].tempoPulsoAlvo, servos[1].tempoPulsoAlvo, servos[2].tempoPulsoAlvo,
                      servos[3].tempoPulsoAlvo, servos[4].tempoPulsoAlvo, servos[5].tempoPulsoAlvo];
      assert targets == Alvos();
      AcionarVarios(6 - primeiro, primeiro, targets, CmdJST);
      AplicadosDesde(primeiro);
      assert old(Alvos()) == targets && old(placa.Estados()) == e0 && old(placa.Pulsos()) == p0;
      placa.AlvejadosOutrosAlvos(primeiro, old(Alvos()), old(placa.Estados()), old(placa.Pulsos()), old(placa.AlvosDosServos()), a0);
      assert placa.Alvejados(primeiro, 6, old(Alvos()), e0, p0, a0);
    }

    // -------------------------------------------------------------------
    // Decoding: RPS and DSL

    /** The targets RPS sends: joints 0..4 to their rest pulses; the gripper's entry, 0, is not sent. */
    function AlvosDeRepouso(): (t: seq<real>)
      requires |servos| == 6
      reads servos`tempoPulsoRepouso
      ensures |t| == 6 && t[5] == 0.0 && forall i :: 0 <= i < 5 ==> t[i] == servos[i].tempoPulsoRepouso as real
    {
      [servos[0].tempoPulsoRepouso as real, servos[1].tempoPulsoRepouso as real, servos[2].tempoPulsoRepouso as real,
       servos[3].tempoPulsoRepouso as real, servos[4].tempoPulsoRepouso as real, 0.0]
    }

    /** The targets DSL sends: zero, which switches a channel off. */
    const AlvosNulos: seq<real> := [0.0, 0.0, 0.0, 0.0, 0.0, 0.0]

    /**
     * RPS: a 5-character frame sends joints 0..4 to their rest pulses, the
     * gripper staying as it is, and records RPS in flight; any other frame
     * gets a NAK and moves nothing.
     */
    method ComandoRps()
      requires Valid()
      modifies this`saida, placa`conta80ms, placa`movingState, placa.Canais(), placa.Servos()`tempoPulsoCorrente,
               placa.Servos()`anguloCorrente, placa.Servos()`tempoPulsoAlvo,
               this`tipoCmdMovServosPorQt, this`ultCmdMovServos, this`strUltCmdMovServos, this`canalCmd1ServoNaoBloq
      ensures Valid()
      ensures |bufferProto| == 5 ==>
        AlvosAplicados(0, 5, old(AlvosDeRepouso())) && MovimentoIniciado(0, 5, old(AlvosDeRepouso()))
        && Registro() == RegistrarVarios(old(Registro()), CmdRPS, MnemonicoDe(CmdRPS)) && saida == old(saida)
      ensures |bufferProto| != 5 ==>
        saida == old(saida) + Resposta(Nak("RPS")) && Registro() == old(Registro())
        && unchanged(placa, placa.Canais(), placa.Servos())
    {
      if |bufferProto| == 5 {
        var targets := AlvosDeRepouso();
        AcionarVarios(5, 0, targets, CmdRPS);
      } else {
        RespostaComando(Nak("RPS"));
      }
    }

    /**
     * DSL: a 5-character frame switches joints 0..4 off, each channel's
     * position and target becoming zero with no motion, and records DSL in
     * flight; any other frame gets a NAK and moves nothing.
     */
    method ComandoDsl()
      requires Valid()
      modifies this`saida, placa`conta80ms, placa`movingState, placa.Canais(), placa.Servos()`tempoPulsoCorrente,
               placa.Servos()`anguloCorrente, placa.Servos()`tempoPulsoAlvo,
               this`tipoCmdMovServosPorQt, this`ultCmdMovServos, this`strUltCmdMovServos, this`canalCmd1ServoNaoBloq
      ensures Valid()
      ensures |bufferProto| == 5 ==>
        AlvosAplicados(0, 5, AlvosNulos) && placa.movingState == old(placa.movingState)
        && (forall i :: 0 <= i < 5 ==> placa.canais[i].position == 0 && placa.canais[i].target == 0)
        && Registro() == RegistrarVarios(old(Registro()), CmdDSL, MnemonicoDe(CmdDSL)) && saida == old(saida)
      ensures |bufferProto| != 5 ==>
        saida == old(saida) + Resposta(Nak("DSL")) && Registro() == old(Registro())
        && unchanged(placa, placa.Canais(), placa.Servos())
    {
      if |bufferProto| == 5 {
        AcionarVarios(5, 0, AlvosNulos, CmdDSL);
        forall i | 0 <= i < 5
          ensures placa.canais[i].position == 0 && placa.canais[i].target == 0
          ensures !SetarTargetSpec(old(placa.canais[i].Atual()), Quartos(AlvosNulos[i])).moveu
        {
          SetarTargetAlvo(old(placa.canais[i].Atual()), 0);
        }
      } else {
        RespostaComando(Nak("DSL"));
      }
    }

    // -------------------------------------------------------------------
    // Decoding: servo configuration (TMX, TMN, T90, TRP, VEL, ACL)

    /** Servo k's configuration is q and every other servo's is as it was. */
    twostate predicate ConfiguracaoDoServo(k: int, q: ParametrosServo)
      requires |servos| == 6
      reads servos
    {
      forall i :: 0 <= i < 6 ==> Parametros(i) == if i == k then q else old(Parametros(i))
    }

    /** The value the field command cmd configures holds, in the servo frame b selects. */
    ghost function AtualDaConfig(cmd: ComandoProto, b: string): int
      requires |servos| == 6 && Configuracao(cmd) && QuadroSelecionavel(b)
      reads servos
    {
      Campo(Parametros(IndiceSelecionado(b)), cmd)
    }

    /**
     * Configuration command cmd applied to frame b, replies aside: the
     * servo named becomes the selected one; when VALSET accepts the frame,
     * its value is stored in that servo's field, no other field of any
     * servo changing, and the frame is rewritten to carry it; when it does
     * not, no servo changes and the frame stays.
     */
    twostate predicate ConfigAplicada(cmd: ComandoProto, b: string)
      requires |servos| == 6 && Configuracao(cmd) && QuadroSelecionavel(b)
      reads this`indexServo, this`bufferProto, servos
    {
      var k := IndiceSelecionado(b);
      var r := ResultadoConfig(b, old(AtualDaConfig(cmd, b)));
      (Selecionar(b).Junta? ==> indexServo == k)
      && (r.ValsetOk? ==> ConfiguracaoDoServo(k, ComCampo(old(Parametros(k)), cmd, r.valor)) && bufferProto == r.quadro)
      && (r.ValsetNak? ==> ConfiguracaoDoServo(k, old(Parametros(k))) && bufferProto == b)
    }

    /**
     * ConfigParamServo for configuration command cmd: the frame names a
     * joint, which becomes the selected servo, or it is refused (JNT NAK
     * for a joint other than J0..J4, the command's NAK when no joint is
     * named); VALSET then refuses the frame with the command's NAK, or
     * stores its value in the servo's field and rewrites the frame for the
     * reply the caller sends.
     */
    method ConfigParamServo(cmd: ComandoProto) returns (ok: bool)
      requires Valid() && dataReady && Configuracao(cmd) && QuadroSelecionavel(bufferProto)
      modifies this`indexServo, this`bufferProto, this`saida,
               placa.Servos()`tempoPulsoMax, placa.Servos()`tempoPulsoMin, placa.Servos()`tempoPulsoPosNeutra,
               placa.Servos()`tempoPulsoRepouso, placa.Servos()`velTmpPulso, placa.Servos()`acelTmpPulso
      ensures Valid() && dataReady
      ensures ConfigAplicada(cmd, old(bufferProto))
      ensures ok == ResultadoConfig(old(bufferProto), old(AtualDaConfig(cmd, bufferProto))).ValsetOk?
      ensures ok ==> saida == old(saida) && 0 <= indexServo < 6
      ensures !ok ==> saida == old(saida) + Resposta(RespostaConfig(cmd, old(bufferProto), old(AtualDaConfig(cmd, bufferProto))))
    {
      var s := Selecionar(bufferProto);
      if s.Junta? {
        ok := ValsetDoServo(s.indice, cmd);
      } else {
        RespostaComando(if s.JuntaInvalida? then JntNak else Nak(MnemonicoDe(cmd)));
        ok := false;
      }
    }

    /** Servo k, the one the frame names, selected, and VALSET on it for configuration command cmd. */
    method ValsetDoServo(k: int, cmd: ComandoProto) returns (ok: bool)
      requires Valid() && dataReady && Configuracao(cmd) && QuadroSelecionavel(bufferProto)
      requires Selecionar(bufferProto) == Junta(k)
      modifies this`indexServo, this`bufferProto, this`saida,
               placa.Servos()`tempoPulsoMax, placa.Servos()`tempoPulsoMin, placa.Servos()`tempoPulsoPosNeutra,
               placa.Servos()`tempoPulsoRepouso, placa.Servos()`velTmpPulso, placa.Servos()`acelTmpPulso
      ensures Valid() && dataReady
      ensures ConfigAplicada(cmd, old(bufferProto))
      ensures ok == ResultadoConfig(old(bufferProto), old(AtualDaConfig(cmd, bufferProto))).ValsetOk?
      ensures ok ==> saida == old(saida)
      ensures !ok ==> saida == old(saida) + Resposta(RespostaConfig(cmd, old(bufferProto), old(AtualDaConfig(cmd, bufferProto))))
    {
      var r := ValSet(bufferProto, Campo(Parametros(k), cmd));
      assert AtualDaConfig(cmd, bufferProto) == Campo(Parametros(k), cmd);
      assert ResultadoConfig(bufferProto, AtualDaConfig(cmd, bufferProto)) == r;
      if r.ValsetNak? {
        RecusarValset(k, cmd);
        ok := false;
      } else {
        AceitarValset(k, cmd, r.valor, r.quadro);
        ok := true;
      }
    }

    /** A frame VALSET refuses: the command's NAK, servo k selected and nothing else changed. */
    method RecusarValset(k: int, cmd: ComandoProto)
      requires Valid() && 0 <= k < 6 && Configuracao(cmd)
      modifies this`indexServo, this`saida
      ensures Valid()
      ensures indexServo == k && saida == old(saida) + Resposta(Nak(MnemonicoDe(cmd)))
    {
      RespostaComando(Nak(MnemonicoDe(cmd)));
      indexServo := k;
    }

    /** A frame VALSET accepts: value v stored in servo k's field, servo k selected, and quadro the frame. */
    method AceitarValset(k: int, cmd: ComandoProto, v: int, quadro: string)
      requires Valid() && dataReady && 0 <= k < 6 && Configuracao(cmd) && QuadroPronto(quadro)
      modifies this`indexServo, this`bufferProto,
               placa.Servos()`tempoPulsoMax, placa.Servos()`tempoPulsoMin, placa.Servos()`tempoPulsoPosNeutra,
               placa.Servos()`tempoPulsoRepouso, placa.Servos()`velTmpPulso, placa.Servos()`acelTmpPulso
      ensures Valid() && dataReady
      ensures indexServo == k && bufferProto == quadro
      ensures ConfiguracaoDoServo(k, ComCampo(old(Parametros(k)), cmd, v))
    {
      GravarCampo(k, cmd, v);
      bufferProto := quadro;
      indexServo := k;
    }

    /** The field command cmd configures, of servo k, set to v. */
    method GravarCampo(k: int, cmd: ComandoProto, v: int)
      requires Ligados() && 0 <= k < 6 && Configuracao(cmd)
      modifies placa.Servos()`tempoPulsoMax, placa.Servos()`tempoPulsoMin, placa.Servos()`tempoPulsoPosNeutra,
               placa.Servos()`tempoPulsoRepouso, placa.Servos()`velTmpPulso, placa.Servos()`acelTmpPulso
      ensures ConfiguracaoDoServo(k, ComCampo(old(Parametros(k)), cmd, v))
    {
      ServosDaPlaca();
      var srv := servos[k];
      match cmd {
        case CmdTMX => srv.tempoPulsoMax := v;
        case CmdTMN => srv.tempoPulsoMin := v;
        case CmdT90 => srv.tempoPulsoPosNeutra := v;
        case CmdTRP => srv.tempoPulsoRepouso := v;
        case CmdVEL => srv.velTmpPulso := v;
        case CmdACL => srv.acelTmpPulso := v;
      }
    }

    /**
     * TMX, TMN, T90 and TRP: the pulse limits, neutral and rest pulses of a
     * servo, set by an 11-character frame and read by a 7-character one; the
     * reply is the frame carrying the value the field holds, or the refusal.
     */
    method ComandoTempo(cmd: ComandoProto)
      requires Valid() && dataReady && (cmd == CmdTMX || cmd == CmdTMN || cmd == CmdT90 || cmd == CmdTRP)
      requires QuadroSelecionavel(bufferProto)
      modifies this`indexServo, this`bufferProto, this`saida,
               placa.Servos()`tempoPulsoMax, placa.Servos()`tempoPulsoMin, placa.Servos()`tempoPulsoPosNeutra,
               placa.Servos()`tempoPulsoRepouso, placa.Servos()`velTmpPulso, placa.Servos()`acelTmpPulso
      ensures Valid() && dataReady
      ensures ConfigAplicada(cmd, old(bufferProto))
      ensures saida == old(saida) + Resposta(RespostaConfig(cmd, old(bufferProto), old(AtualDaConfig(cmd, bufferProto))))
    {
      RespostaAceita(cmd, bufferProto, AtualDaConfig(cmd, bufferProto));
      var ok := ConfigParamServo(cmd);
      ResponderSeAceito(ok);
    }

    /** The reply to an accepted configuration frame: the frame as rewritten; a refused one has had its reply. */
    method ResponderSeAceito(ok: bool)
      requires Valid()
      modifies this`saida
      ensures Valid()
      ensures saida == old(saida) + if ok then Resposta(bufferProto) else []
    {
      if ok {
        RespostaComando(bufferProto);
      }
    }

    /**
     * VEL: a servo's speed, set or read as TMX does; once accepted, it is
     * sent to the servo's channel and committed, and the frame carrying it
     * is the reply.
     */
    method ComandoVel()
      requires Valid() && dataReady && QuadroSelecionavel(bufferProto)
      modifies this`indexServo, this`bufferProto, this`saida, this`servosTemp, placa.Canais()`speed,
               placa.Servos()`tempoPulsoMax, placa.Servos()`tempoPulsoMin, placa.Servos()`tempoPulsoPosNeutra,
               placa.Servos()`tempoPulsoRepouso, placa.Servos()`velTmpPulso, placa.Servos()`acelTmpPulso
      ensures Valid() && dataReady
      ensures ConfigAplicada(CmdVEL, old(bufferProto))
      ensures saida == old(saida) + Resposta(RespostaConfig(CmdVEL, old(bufferProto), old(AtualDaConfig(CmdVEL, bufferProto))))
      ensures if ResultadoConfig(old(bufferProto), old(AtualDaConfig(CmdVEL, bufferProto))).ValsetOk? then
          VelocidadeAplicada(indexServo)
        else
          servosTemp == old(servosTemp) && forall i :: 0 <= i < 6 ==> placa.canais[i].speed == old(placa.canais[i].speed)
    {
      RespostaAceita(CmdVEL, bufferProto, AtualDaConfig(CmdVEL, bufferProto));
      var ok := ConfigParamServo(CmdVEL);
      AplicarVelocidade(ok, indexServo);
    }

    /** Servo k's speed is its channel's, every other channel's is as it was, and every servo's speed is committed. */
    twostate predicate VelocidadeAplicada(k: int)
      requires Ligados() && |servosTemp| == 6 && old(|servosTemp|) == 6 && 0 <= k < 6
      reads this`servosTemp, servos, placa.canais
    {
      placa.canais[k].speed == servos[k].velTmpPulso
      && (forall i :: 0 <= i < 6 && i != k ==> placa.canais[i].speed == old(placa.canais[i].speed))
      && forall i :: 0 <= i < 6 ==> servosTemp[i] == old(servosTemp[i]).(velTmpPulso := servos[i].velTmpPulso)
    }

    /** When VEL accepted the frame, the speed of servo k sent to its channel and committed, and the frame the reply. */
    method AplicarVelocidade(ok: bool, k: int)
      requires Valid() && (ok ==> 0 <= k < 6)
      modifies this`saida, this`servosTemp, placa.Canais()`speed
      ensures Valid()
      ensures ok ==> VelocidadeAplicada(k) && saida == old(saida) + Resposta(bufferProto)
      ensures !ok ==> (saida == old(saida) && servosTemp == old(servosTemp)
                       && forall i :: 0 <= i < 6 ==> placa.canais[i].speed == old(placa.canais[i].speed))
    {
      if ok {
        ServosDaPlaca();
        var _ := placa.SetSpeed(k, servos[k].velTmpPulso);
        CommitVelocidades();
        RespostaComando(bufferProto);
      }
    }

    /**
     * ACL: a servo's acceleration, set or read as TMX does; once accepted,
     * it is sent to the servo's channel and committed, and the frame
     * carrying it is the reply.
     */
    method ComandoAcl()
      requires Valid() && dataReady && QuadroSelecionavel(bufferProto)
      modifies this`indexServo, this`bufferProto, this`saida, this`servosTemp, placa.Canais()`acceleration,
               placa.Servos()`tempoPulsoMax, placa.Servos()`tempoPulsoMin, placa.Servos()`tempoPulsoPosNeutra,
               placa.Servos()`tempoPulsoRepouso, placa.Servos()`velTmpPulso, placa.Servos()`acelTmpPulso
      ensures Valid() && dataReady
      ensures ConfigAplicada(CmdACL, old(bufferProto))
      ensures saida == old(saida) + Resposta(RespostaConfig(CmdACL, old(bufferProto), old(AtualDaConfig(CmdACL, bufferProto))))
      ensures if ResultadoConfig(old(bufferProto), old(AtualDaConfig(CmdACL, bufferProto))).ValsetOk? then
          AceleracaoAplicada(indexServo)
        else
          servosTemp == old(servosTemp)
          && forall i :: 0 <= i < 6 ==> placa.canais[i].acceleration == old(placa.canais[i].acceleration)
    {
      RespostaAceita(CmdACL, bufferProto, AtualDaConfig(CmdACL, bufferProto));
      var ok := ConfigParamServo(CmdACL);
      AplicarAceleracao(ok, indexServo);
    }

    /** Servo k's acceleration is its channel's, every other channel's is as it was, and every servo's acceleration is committed. */
    twostate predicate AceleracaoAplicada(k: int)
      requires Ligados() && |servosTemp| == 6 && old(|servosTemp|) == 6 && 0 <= k < 6
      reads this`servosTemp, servos, placa.canais
    {
      placa.canais[k].acceleration == servos[k].acelTmpPulso
      && (forall i :: 0 <= i < 6 && i != k ==> placa.canais[i].acceleration == old(placa.canais[i].acceleration))
      && forall i :: 0 <= i < 6 ==> servosTemp[i] == old(servosTemp[i]).(acelTmpPulso := servos[i].acelTmpPulso)
    }

    /** When ACL accepted the frame, the acceleration of servo k sent to its channel and committed, and the frame the reply. */
    method AplicarAceleracao(ok: bool, k: int)
      requires Valid() && (ok ==> 0 <= k < 6)
      modifies this`saida, this`servosTemp, placa.Canais()`acceleration
      ensures Valid()
      ensures ok ==> AceleracaoAplicada(k) && saida == old(saida) + Resposta(bufferProto)
      ensures !ok ==> (saida == old(saida) && servosTemp == old(servosTemp)
                       && forall i :: 0 <= i < 6 ==> placa.canais[i].acceleration == old(placa.canais[i].acceleration))
    {
      if ok {
        ServosDaPlaca();
        var _ := placa.SetAcceleration(k, servos[k].acelTmpPulso);
        CommitAceleracoes();
        RespostaComando(bufferProto);
      }
    }

    // -------------------------------------------------------------------
    // Decoding: modes and board queries (FRS, CSB, ECH, EMM, GMS)

    /**
     * FRS: a 6-character frame whose option is 0, 1 or 2 selects the
     * feedback sent while servos move and is echoed; a 5-character frame is
     * answered with the current option; anything else gets a NAK.
     */
    method ComandoFrs()
      requires Valid()
      modifies this`feedbackRastrServos, this`saida
      ensures Valid()
      ensures var b := old(bufferProto);
        if |b| == 6 && SemFeedback <= Opcao(b[4]) <= SinalDeMovimento then
          feedbackRastrServos == Opcao(b[4]) && saida == old(saida) + Resposta(b)
        else
          feedbackRastrServos == old(feedbackRastrServos)
          && saida == old(saida) + Resposta(if |b| == 5 then RespostaModo("FRS", feedbackRastrServos) else Nak("FRS"))
    {
      var b := bufferProto;
      if |b| == 6 {
        var op := Opcao(b[4]);
        if SemFeedback <= op <= SinalDeMovimento {
          feedbackRastrServos := op;
          RespostaComando(b);
        } else {
          RespostaComando(Nak("FRS"));
        }
      } else if |b| == 5 {
        RespostaComando(RespostaModo("FRS", feedbackRastrServos));
      } else {
        RespostaComando(Nak("FRS"));
      }
    }

    /**
     * CSB: a 6-character frame whose option is 0 or 1 makes servo commands
     * blocking (1) or not (0) and is echoed; a 5-character frame is answered
     * with the current option; anything else gets a NAK.
     */
    method ComandoCsb()
      requires Valid()
      modifies this`comandosServosBloqueantes, this`saida
      ensures Valid()
      ensures var b := old(bufferProto);
        if |b| == 6 && 0 <= Opcao(b[4]) <= 1 then
          comandosServosBloqueantes == (Opcao(b[4]) == 1) && saida == old(saida) + Resposta(b)
        else
          comandosServosBloqueantes == old(comandosServosBloqueantes)
          && saida == old(saida) + Resposta(if |b| == 5 then RespostaModo("CSB", if comandosServosBloqueantes then 1 else 0)
                                            else Nak("CSB"))
    {
      var b := bufferProto;
      if |b| == 6 {
        var op := Opcao(b[4]);
        if op == 0 || op == 1 {
          comandosServosBloqueantes := op == 1;
          RespostaComando(b);
        } else {
          RespostaComando(Nak("CSB"));
        }
      } else if |b| == 5 {
        RespostaComando(RespostaModo("CSB", if comandosServosBloqueantes then 1 else 0));
      } else {
        RespostaComando(Nak("CSB"));
      }
    }

    /**
     * ECH: a 6-character frame whose option is 0 or 1 turns the echo of
     * received characters off (0) or on (1) and is echoed; a 5-character
     * frame is answered with the current option; anything else gets a NAK.
     */
    method ComandoEch()
      requires Valid()
      modifies this`ecoCaracteresAtivado, this`saida
      ensures Valid()
      ensures var b := old(bufferProto);
        if |b| == 6 && 0 <= Opcao(b[4]) <= 1 then
          ecoCaracteresAtivado == (Opcao(b[4]) == 1) && saida == old(saida) + Resposta(b)
        else
          ecoCaracteresAtivado == old(ecoCaracteresAtivado)
          && saida == old(saida) + Resposta(if |b| == 5 then RespostaModo("ECH", if ecoCaracteresAtivado then 1 else 0)
                                            else Nak("ECH"))
    {
      var b := bufferProto;
      if |b| == 6 {
        var op := Opcao(b[4]);
        if op == 0 || op == 1 {
          ecoCaracteresAtivado := op == 1;
          RespostaComando(b);
        } else {
          RespostaComando(Nak("ECH"));
        }
      } else if |b| == 5 {
        RespostaComando(RespostaModo("ECH", if ecoCaracteresAtivado then 1 else 0));
      } else {
        RespostaComando(Nak("ECH"));
      }
    }

    /** EMM: the board's error flags as four hexadecimal digits, which the simulated board always reports as none. */
    method ComandoEmm()
      requires Valid()
      modifies this`saida
      ensures saida == old(saida) + Resposta("[EMM0000]")
    {
      var erros := placa.GetErrors();
      assert Hex4(erros) == "0000";
      assert "[EMM" + Hex4(erros) + "]" == "[EMM0000]";
      RespostaComando("[EMM" + Hex4(erros) + "]");
    }

    /** GMS: [GMS1] while the board reports motion, [GMS0] otherwise. */
    method ComandoGms()
      requires Valid()
      modifies this`saida
      ensures saida == old(saida) + Resposta(if placa.movingState == 1 then "[GMS1]" else "[GMS0]")
    {
      var ms := placa.GetMovingState();
      if ms == 0 {
        RespostaComando("[GMS0]");
      } else {
        RespostaComando("[GMS1]");
      }
    }

    // -------------------------------------------------------------------
    // Decoding: STT and RST

    /** The status lines of one servo: its name, target pulse and the limits of its range. */
    function StatusDoServo(srv: Servo): seq<string>
      reads srv
    {
      StatusServo(srv.nome, srv.sigla, srv.tempoPulsoAlvo, srv.tempoPulsoMin, srv.tempoPulsoMax, srv.tempoPulsoPosNeutra)
    }

    /** The status lines of servos 0 .. n-1, in order. */
    ghost function StatusDosServos(n: int): seq<string>
      requires 0 <= n <= |servos|
      reads servos
      decreases n
    {
      if n == 0 then [] else StatusDosServos(n - 1) + StatusDoServo(servos[n - 1])
    }

    /**
     * The report has five lines per servo, in servo order: line 5i+j is
     * line j of servo i's status, so servo i's start with its name.
     */
    lemma {:induction false} StatusDosServosLinhas(n: int)
      requires 0 <= n <= |servos|
      ensures |StatusDosServos(n)| == 5 * n
      ensures forall i, j :: 0 <= i < n && 0 <= j < 5 ==> StatusDosServos(n)[5 * i + j] == StatusDoServo(servos[i])[j]
    {
      if n > 0 {
        StatusDosServosLinhas(n - 1);
        var r, p, d := StatusDosServos(n), StatusDosServos(n - 1), StatusDoServo(servos[n - 1]);
        assert r == p + d && |d| == 5;
        forall i, j | 0 <= i < n && 0 <= j < 5
          ensures r[5 * i + j] == StatusDoServo(servos[i])[j]
        {
          if i < n - 1 {
            assert r[5 * i + j] == p[5 * i + j];
          } else {
            assert r[5 * i + j] == d[j];
          }
        }
      }
    }

    /** EnviaStatusServo: the status lines of one servo written. */
    method EnviaStatusServo(srv: Servo)
      modifies this`saida
      ensures saida == old(saida) + StatusDoServo(srv)
    {
      saida := saida + [Linha(srv.nome + ":")];
      saida := saida + [Linha(" TMP PULSO = " + FormataReal(srv.tempoPulsoAlvo))];
      var garra := srv.sigla == "GR";
      saida := saida + [Linha(" TMP " + (if garra then "GARRA FECHADA" else "MINIMO") + ": " + Formata0000(srv.tempoPulsoMin))];
      saida := saida + [Linha(" TMP " + (if garra then "GARRA ABERTA" else "MAXIMO") + ": " + Formata0000(srv.tempoPulsoMax))];
      saida := saida + [Linha(" TMP " + (if garra then "GARRA SEMI ABERTA" else "90 GRAUS") + ": "
                              + Formata0000(srv.tempoPulsoPosNeutra))];
    }

    /** STT: a heading, the status of the six servos in order, then the states of the eight LEDs. */
    method ComandoStt()
      requires |servos| == 6 && |bufferLeds| == 8
      modifies this`saida
      ensures saida == old(saida) + [Linha(""), Linha("TEMPO DOS SERVOS:")] + StatusDosServos(6) + StatusLeds(bufferLeds)
    {
      saida := saida + [Linha(""), Linha("TEMPO DOS SERVOS:")];
      ghost var inicio := saida;
      for i := 0 to 6
        invariant saida == inicio + StatusDosServos(i)
      {
        EnviaStatusServo(servos[i]);
        Associa(inicio, StatusDosServos(i), StatusDoServo(servos[i]));
      }
      saida := saida + StatusLeds(bufferLeds);
    }

    /**
     * RST: [RSTM] restarts the board's servos between two notices; [RST]
     * echoes the frame, announces the reset, restarts the servos and sends
     * the arm back through the start-up sequence; any other frame gets a
     * NAK. A restart reads every servo's target back from its channel and
     * configures the servos and channels again.
     */
    method ComandoRst()
      requires Valid()
      modifies this`saida, this`servosTemp, this`estadoPosicaoRepouso, placa.Canais()`speed, placa.Canais()`acceleration,
               placa.Canais()`max, placa.Canais()`min,
               placa.Servos()`tempoPulsoAlvo, placa.Servos()`tempoPulsoMax, placa.Servos()`tempoPulsoMin,
               placa.Servos()`tempoPulsoPosNeutra, placa.Servos()`tempoPulsoRepouso,
               placa.Servos()`velTmpPulso, placa.Servos()`acelTmpPulso, placa.Servos()`coefAngular,
               placa.Servos()`offsetAngular, placa.Servos()`conversaoTempoParaAnguloAtiva
      ensures Valid() && Rx() == old(Rx()) && Registro() == old(Registro())
      ensures var b := old(bufferProto);
        if |b| == 6 && b[4] == 'M' then
          Reiniciado()
          && saida == old(saida) + Resposta("[RESETANDO MINI MAESTRO 24]") + old(ErrosIniciais(6)) + Resposta("[PRONTO]")
          && estadoPosicaoRepouso == old(estadoPosicaoRepouso)
        else if |b| == 5 then
          Reiniciado()
          && saida == old(saida) + Resposta(b) + [Linha("[RESETANDO]")] + old(ErrosIniciais(6))
          && estadoPosicaoRepouso == 0
        else
          saida == old(saida) + Resposta(Nak("RST")) && estadoPosicaoRepouso == old(estadoPosicaoRepouso)
          && unchanged(placa.Canais(), placa.Servos()) && servosTemp == old(servosTemp)
    {
      var b := bufferProto;
      if |b| == 6 && b[4] == 'M' {
        ReiniciarServos(Resposta("[RESETANDO MINI MAESTRO 24]"), Resposta("[PRONTO]"), estadoPosicaoRepouso);
      } else if |b| == 5 {
        ReiniciarServos(Resposta(b) + [Linha("[RESETANDO]")], [], 0);
      } else {
        RespostaComando(Nak("RST"));
      }
    }

    /**
     * The notice aviso written, the servos restarted by IniciarServos, the
     * lines fim written, and the start-up step set to estado.
     */
    method ReiniciarServos(aviso: seq<string>, fim: seq<string>, estado: int)
      requires Valid()
      modifies this`saida, this`servosTemp, this`estadoPosicaoRepouso, placa.Canais()`speed, placa.Canais()`acceleration,
               placa.Canais()`max, placa.Canais()`min,
               placa.Servos()`tempoPulsoAlvo, placa.Servos()`tempoPulsoMax, placa.Servos()`tempoPulsoMin,
               placa.Servos()`tempoPulsoPosNeutra, placa.Servos()`tempoPulsoRepouso,
               placa.Servos()`velTmpPulso, placa.Servos()`acelTmpPulso, placa.Servos()`coefAngular,
               placa.Servos()`offsetAngular, placa.Servos()`conversaoTempoParaAnguloAtiva
      ensures Valid() && Rx() == old(Rx()) && Registro() == old(Registro()) && estadoPosicaoRepouso == estado
      ensures Reiniciado() && saida == old(saida) + aviso + old(ErrosIniciais(6)) + fim
    {
      ghost var erros := ErrosIniciais(6);
      estadoPosicaoRepouso := estado;
      saida := saida + aviso;
      assert ErrosIniciais(6) == erros;
      IniciarServos();
      saida := saida + fim;
    }

    /** The servos restarted: configured, and each one's target read back from its channel. */
    twostate predicate Reiniciado()
      requires Ligados() && |servosTemp| == 6 && old(|servosTemp|) == 6
      reads this`servosTemp, servos, placa.canais
    {
      forall i :: 0 <= i < 6 ==>
        Configurado(i) && servos[i].tempoPulsoAlvo == AlvoInicial(old(placa.canais[i].position))
        && servosTemp[i] == old(servosTemp[i]).(tempoPulsoAlvo := servos[i].tempoPulsoAlvo)
    }

    // -------------------------------------------------------------------
    // Decoding: GTP

    /**
     * GTP: replies as GtpComoEscrito says for the frame and the channels'
     * positions, and when it synchronises, gives the servo read the target
     * pulse AlvoSincronizadoComoEscrito (a joint its position in us, the
     * gripper its position in 0.25 us) and commits the targets; otherwise no
     * target changes.
     */
    method ComandoGtp()
      requires Valid()
      modifies this`saida, this`servosTemp, placa.Servos()`tempoPulsoAlvo
      ensures Valid()
      ensures var a := GtpComoEscrito(old(bufferProto), old(placa.Posicoes()));
        saida == old(saida) + Resposta(a.resposta)
        && (a.sincroniza ==>
              Alvos() == old(Alvos())[a.canal := AlvoSincronizadoComoEscrito(a.canal, old(placa.canais[a.canal].position))]
              && forall i :: 0 <= i < 6 ==> servosTemp[i] == old(servosTemp[i]).(tempoPulsoAlvo := servos[i].tempoPulsoAlvo))
        && (!a.sincroniza ==> Alvos() == old(Alvos()) && servosTemp == old(servosTemp))
    {
      var b := bufferProto;
      if |b| < 7 || |b| > 8 || (|b| == 8 && b[6] != 'S') {
        RespostaComando(Nak("GTP"));
      } else {
        var s := Selecionar(b);
        if s.Junta? {
          LerPosicaoGtp(s.indice, b);
        } else {
          RespostaComando(JntNak);
        }
      }
    }

    /** GTP on servo k: its channel's position read, the target synchronised when b asks for it, and the reply. */
    method LerPosicaoGtp(k: int, b: string)
      requires Valid() && 0 <= k < 6 && 7 <= |b|
      modifies this`saida, this`servosTemp, placa.Servos()`tempoPulsoAlvo
      ensures Valid()
      ensures var p := placa.canais[k].position;
        if p == PosicaoInvalida then
          saida == old(saida) + Resposta(Err("GTP")) && Alvos() == old(Alvos()) && servosTemp == old(servosTemp)
        else
          saida == old(saida) + Resposta(RespostaGtpComoEscrita(b, k, p))
          && (b[6] == 'S' ==>
                Alvos() == old(Alvos())[k := AlvoSincronizadoComoEscrito(k, p)]
                && forall i :: 0 <= i < 6 ==> servosTemp[i] == old(servosTemp[i]).(tempoPulsoAlvo := servos[i].tempoPulsoAlvo))
          && (b[6] != 'S' ==> Alvos() == old(Alvos()) && servosTemp == old(servosTemp))
    {
      var p := placa.GetPosition(k);
      if p == PosicaoInvalida {
        RespostaComando(Err("GTP"));
      } else {
        ResponderGtp(k, b, p);
      }
    }

    /** GTP on servo k at position p: the target synchronised when b asks for it, then the reply. */
    method ResponderGtp(k: int, b: string, p: int)
      requires Valid() && 0 <= k < 6 && 7 <= |b|
      modifies this`saida, this`servosTemp, placa.Servos()`tempoPulsoAlvo
      ensures Valid()
      ensures saida == old(saida) + Resposta(RespostaGtpComoEscrita(b, k, p))
      ensures b[6] == 'S' ==>
                Alvos() == old(Alvos())[k := AlvoSincronizadoComoEscrito(k, p)]
                && forall i :: 0 <= i < 6 ==> servosTemp[i] == old(servosTemp[i]).(tempoPulsoAlvo := servos[i].tempoPulsoAlvo)
      ensures b[6] != 'S' ==> Alvos() == old(Alvos()) && servosTemp == old(servosTemp)
    {
      if b[6] == 'S' {
        SincronizarAlvo(k, p);
      }
      RespostaComando(RespostaGtpComoEscrita(b, k, p));
    }

    /** Servo k's target pulse set from the channel position p (0.25 us) as GTP writes it, and the targets committed. */
    method SincronizarAlvo(k: int, p: int)
      requires Valid() && 0 <= k < 6
      modifies this`servosTemp, placa.Servos()`tempoPulsoAlvo
      ensures Valid()
      ensures Alvos() == old(Alvos())[k := AlvoSincronizadoComoEscrito(k, p)]
      ensures forall i :: 0 <= i < 6 ==> servosTemp[i] == old(servosTemp[i]).(tempoPulsoAlvo := servos[i].tempoPulsoAlvo)
    {
      ServosDaPlaca();
      servos[k].tempoPulsoAlvo := AlvoSincronizadoComoEscrito(k, p);
      CommitTempos();
    }

    // -------------------------------------------------------------------
    // Replies and feedback of the servo command in flight

    /** The six channels' positions, read from the board one channel at a time. */
    method LerPosicoes() returns (ps: seq<int>)
      requires Valid()
      ensures ps == placa.Posicoes()
    {
      ps := [];
      for canal := 0 to 6
        invariant |ps| == canal && forall j :: 0 <= j < canal ==> ps[j] == placa.canais[j].position
      {
        var p := placa.GetPosition(canal);
        ps := ps + [p];
      }
    }

    /**
     * A total stop, when one has been asked for: every channel's target set
     * to the position read from it, as ParadaTotal sets it or, when
     * emMicros, converted to us; otherwise no channel changes.
     */
    method PararSeSolicitado(emMicros: bool)
      requires Valid()
      modifies placa`conta80ms, placa`movingState, placa.Canais(), placa.Servos()`tempoPulsoCorrente,
               placa.Servos()`anguloCorrente, placa.Servos()`tempoPulsoAlvo
      ensures Valid()
      ensures placa.Alvejados(0, if paradaTotalSolicitada then 6 else 0, old(AlvosDaParada(emMicros)),
                              old(placa.Estados()), old(placa.Pulsos()), old(placa.AlvosDosServos()))
      ensures !paradaTotalSolicitada ==> placa.movingState == old(placa.movingState) && placa.conta80ms == old(placa.conta80ms)
    {
      if paradaTotalSolicitada {
        ghost var e0, p0, a0 := placa.Estados(), placa.Pulsos(), placa.AlvosDosServos();
        ghost var alvos := AlvosDaParada(emMicros);
        PararCanais(emMicros, alvos, e0, p0, a0);
      }
    }

    /**
     * The text of the motion feedback while the command in flight, of
     * multiplicity tipo, is moving: none without feedback, [MOV] as a motion
     * signal, and otherwise the servo's name and position (one servo) or
     * the six servos' positions (several servos).
     */
    function TextoDoFeedback(modo: int, tipo: Multiplicidade, sigla: string, posicao: int, ps: seq<int>): seq<string>
      requires |ps| == 6
    {
      if modo == SemFeedback then []
      else if modo == SinalDeMovimento then Feedback("[MOV]")
      else if tipo == ApenasUm then Feedback(FeedbackUmServo(sigla, posicao))
      else Feedback(FeedbackVarios(ps))
    }

    /**
     * The command in flight still moving: the total stop, when asked for,
     * then the feedback of the feedback mode; the one-servo feedback reports
     * the position read after the stop, the multi-servo feedback the
     * positions read before it.
     */
    method FeedbackEmMovimento()
      requires Valid() && tipoCmdMovServosPorQt != Nenhum
      modifies this`saida, placa`conta80ms, placa`movingState, placa.Canais(), placa.Servos()`tempoPulsoCorrente,
               placa.Servos()`anguloCorrente, placa.Servos()`tempoPulsoAlvo
      ensures Valid() && MovimentoInformado()
    {
      if tipoCmdMovServosPorQt == Varios && feedbackRastrServos == TemposDosServos {
        FeedbackDosCanais();
      } else {
        FeedbackDoServo();
      }
    }

    /**
     * The feedback of a multi-servo command: the six positions read, the
     * total stop when asked for (each channel sent to its position in us,
     * which keeps it where it stands), then [MOV...].
     */
    method FeedbackDosCanais()
      requires Valid()
      modifies this`saida, placa`conta80ms, placa`movingState, placa.Canais(), placa.Servos()`tempoPulsoCorrente,
               placa.Servos()`anguloCorrente, placa.Servos()`tempoPulsoAlvo
      ensures Valid()
      ensures placa.Alvejados(0, if paradaTotalSolicitada then 6 else 0, old(AlvosDaParada(true)),
                              old(placa.Estados()), old(placa.Pulsos()), old(placa.AlvosDosServos()))
      ensures !paradaTotalSolicitada ==> placa.movingState == old(placa.movingState) && placa.conta80ms == old(placa.conta80ms)
      ensures saida == old(saida) + Feedback(FeedbackVarios(old(placa.Posicoes())))
    {
      ghost var alvos, e0, p0, a0 := AlvosDaParada(true), placa.Estados(), placa.Pulsos(), placa.AlvosDosServos();
      var ps := LerPosicoes();
      PararSeSolicitado(true);
      EnviarFeedbackAlvejados(FeedbackVarios(ps), if paradaTotalSolicitada then 6 else 0, alvos, e0, p0, a0);
    }

    /** EnviarFeedback, the channels staying targeted as they were. */
    method EnviarFeedbackAlvejados(f: string, ghost n: int, ghost alvos: seq<real>, ghost e0: seq<Estado>,
                                   ghost p0: seq<Pulso>, ghost a0: seq<real>)
      requires Valid() && placa.Alvejados(0, n, alvos, e0, p0, a0)
      modifies this`saida
      ensures Valid() && placa.Alvejados(0, n, alvos, e0, p0, a0)
      ensures saida == old(saida) + Feedback(f)
    {
      EnviarFeedback(f);
    }

    /**
     * The feedback of a one-servo command, or the bare motion signal: the
     * total stop when asked for, then the feedback of the feedback mode.
     */
    method FeedbackDoServo()
      requires Valid() && (tipoCmdMovServosPorQt == ApenasUm || feedbackRastrServos != TemposDosServos)
      modifies this`saida, placa`conta80ms, placa`movingState, placa.Canais(), placa.Servos()`tempoPulsoCorrente,
               placa.Servos()`anguloCorrente, placa.Servos()`tempoPulsoAlvo
      ensures Valid()
      ensures placa.Alvejados(0, if paradaTotalSolicitada then 6 else 0, old(AlvosDaParada(false)),
                              old(placa.Estados()), old(placa.Pulsos()), old(placa.AlvosDosServos()))
      ensures !paradaTotalSolicitada ==> placa.movingState == old(placa.movingState) && placa.conta80ms == old(placa.conta80ms)
      ensures saida == old(saida) + FeedbackDoModo(canalCmd1ServoNaoBloq)
    {
      ghost var alvos, e0, p0, a0 := AlvosDaParada(false), placa.Estados(), placa.Pulsos(), placa.AlvosDosServos();
      PararSeSolicitado(false);
      InformarServo(if paradaTotalSolicitada then 6 else 0, alvos, e0, p0, a0);
    }

    /**
     * The one-servo feedback in the feedback mode: none, [MOV] as a motion
     * signal, or the servo of channel k with its channel's position.
     */
    function FeedbackDoModo(k: int): seq<string>
      requires |servos| == 6 && |placa.canais| == 6 && (feedbackRastrServos == TemposDosServos ==> 0 <= k < 6)
      reads this`feedbackRastrServos, servos, placa.canais
    {
      if feedbackRastrServos == SemFeedback then []
      else if feedbackRastrServos == SinalDeMovimento then Feedback("[MOV]")
      else if feedbackRastrServos == TemposDosServos then Feedback(FeedbackUmServo(servos[k].sigla, placa.canais[k].position))
      else []
    }

    /**
     * The feedback of the feedback mode for the one-servo command in flight;
     * the channels stay targeted as they were.
     */
    method InformarServo(ghost n: int, ghost alvos: seq<real>, ghost e0: seq<Estado>, ghost p0: seq<Pulso>, ghost a0: seq<real>)
      requires Valid() && (tipoCmdMovServosPorQt == ApenasUm || feedbackRastrServos != TemposDosServos)
      requires placa.Alvejados(0, n, alvos, e0, p0, a0)
      modifies this`saida
      ensures Valid() && placa.Alvejados(0, n, alvos, e0, p0, a0)
      ensures saida == old(saida) + FeedbackDoModo(canalCmd1ServoNaoBloq)
    {
      if feedbackRastrServos == TemposDosServos {
        var k := canalCmd1ServoNaoBloq;
        var p := placa.GetPosition(k);
        EnviarFeedback(FeedbackUmServo(servos[k].sigla, p));
      } else if feedbackRastrServos == SinalDeMovimento {
        EnviarFeedback("[MOV]");
      }
    }

    /** The six servos' names (siglas). */
    ghost function Siglas(): (s: seq<string>)
      requires |servos| == 6
      reads servos
      ensures |s| == 6 && forall i :: 0 <= i < 6 ==> s[i] == servos[i].sigla
    {
      [servos[0].sigla, servos[1].sigla, servos[2].sigla, servos[3].sigla, servos[4].sigla, servos[5].sigla]
    }

    /**
     * The command in flight has stopped: the targets committed, the speeds
     * back after a total stop, the final reply with the positions reached,
     * and the record cleared. The reply is composed before the commit, which
     * changes neither the positions nor the record.
     */
    method ConcluirMovimento()
      requires Valid() && tipoCmdMovServosPorQt != Nenhum
      modifies this`saida, this`servosTemp, this`paradaTotalSolicitada, placa.Canais()`speed,
               this`tipoCmdMovServosPorQt, this`ultCmdMovServos, this`canalCmd1ServoNaoBloq
      ensures Valid() && MovimentoConcluido()
    {
      var s := TextoDoFim();
      ConfirmarAlvos();
      ResponderEResetar(s);
    }

    /** The targets committed, then the speeds back after a total stop. */
    method ConfirmarAlvos()
      requires Valid()
      modifies this`servosTemp, this`paradaTotalSolicitada, placa.Canais()`speed
      ensures Valid() && Registro() == old(Registro()) && !paradaTotalSolicitada
      ensures forall i :: 0 <= i < 6 ==> servosTemp[i] == old(servosTemp[i]).(tempoPulsoAlvo := servos[i].tempoPulsoAlvo)
      ensures forall i :: 0 <= i < 6 ==>
        placa.canais[i].speed == if old(paradaTotalSolicitada) then servos[i].velTmpPulso else old(placa.canais[i].speed)
    {
      CommitTempos();
      RetomarVelocidadesAposParadaTotal1Servo();
    }

    /** The reply r, then the record cleared. */
    method ResponderEResetar(r: string)
      requires Valid()
      modifies this`saida, this`tipoCmdMovServosPorQt, this`ultCmdMovServos, this`canalCmd1ServoNaoBloq
      ensures Valid() && Registro() == Resetado(old(Registro())) && saida == old(saida) + Resposta(r)
    {
      RespostaComando(r);
      ResetaVariaveisDeFeedBack();
    }

    /** The final reply of the command in flight, with the positions the channels have reached. */
    method TextoDoFim() returns (s: string)
      requires Valid() && tipoCmdMovServosPorQt != Nenhum
      ensures s == RespostaDoFim(Registro(), Siglas(), placa.Posicoes())
    {
      if tipoCmdMovServosPorQt == ApenasUm {
        var k := canalCmd1ServoNaoBloq;
        var p := placa.GetPosition(k);
        s := RespostaUmServo(Registro(), servos[k].sigla, p);
      } else {
        var ps := LerPosicoes();
        s := RespostaVarios(strUltCmdMovServos, ps);
      }
    }

    /** What the feedback leaves alone: the characters not yet taken, the ready flag and the start-up step. */
    function Pendentes(): (string, bool, int)
      reads this`bfRecebe, this`dataReady, this`estadoPosicaoRepouso
    {
      (bfRecebe, dataReady, estadoPosicaoRepouso)
    }

    /**
     * RespEFeedbackMovServos: with no servo command in flight nothing
     * happens; while the board is moving, the total stop when asked for and
     * the motion feedback; once it has stopped, the targets committed, the
     * speeds back, the final reply and the record cleared. The simulated
     * board reports only moving (1) or stopped (0).
     */
    method RespEFeedbackMovServos()
      requires Valid()
      modifies this`saida, this`servosTemp, this`paradaTotalSolicitada,
               this`tipoCmdMovServosPorQt, this`ultCmdMovServos, this`canalCmd1ServoNaoBloq,
               placa`conta80ms, placa`movingState, placa.Canais(), placa.Servos()`tempoPulsoCorrente,
               placa.Servos()`anguloCorrente, placa.Servos()`tempoPulsoAlvo
      ensures Valid()
      ensures old(tipoCmdMovServosPorQt) == Nenhum ==> unchanged(this) && unchanged(placa, placa.Canais(), placa.Servos())
      ensures Pendentes() == old(Pendentes())
      ensures old(tipoCmdMovServosPorQt) != Nenhum && old(placa.movingState) == 1 ==> MovimentoInformado()
      ensures old(tipoCmdMovServosPorQt) != Nenhum && old(placa.movingState) != 1 ==> MovimentoConcluido()
    {
      if tipoCmdMovServosPorQt != Nenhum {
        AcompanharComando();
      }
    }

    /** The command in flight followed: its feedback while the board moves, its conclusion once it stops. */
    method AcompanharComando()
      requires Valid() && tipoCmdMovServosPorQt != Nenhum
      modifies this`saida, this`servosTemp, this`paradaTotalSolicitada,
               this`tipoCmdMovServosPorQt, this`ultCmdMovServos, this`canalCmd1ServoNaoBloq,
               placa`conta80ms, placa`movingState, placa.Canais(), placa.Servos()`tempoPulsoCorrente,
               placa.Servos()`anguloCorrente, placa.Servos()`tempoPulsoAlvo
      ensures Valid()
      ensures old(placa.movingState) == 1 ==> MovimentoInformado()
      ensures old(placa.movingState) != 1 ==> MovimentoConcluido()
    {
      var m := placa.GetMovingState();
      if m == 1 {
        FeedbackEmMovimento();
      } else {
        ConcluirMovimento();
      }
    }

    /**
     * While the command in flight moves: the record, the stop request and
     * the committed values as they were; every channel targeted at the
     * position read from it when a total stop was asked for (converted to us
     * under the multi-servo position feedback, taken as read otherwise),
     * none touched otherwise; and the feedback of the feedback mode written.
     */
    twostate predicate MovimentoInformado()
      requires Ligados()
      reads this`saida, this`tipoCmdMovServosPorQt, this`ultCmdMovServos, this`strUltCmdMovServos,
            this`canalCmd1ServoNaoBloq, this`paradaTotalSolicitada, this`servosTemp, this`feedbackRastrServos,
            servos, placa, placa.Canais(), placa.Servos()
    {
      Registro() == old(Registro()) && paradaTotalSolicitada == old(paradaTotalSolicitada) && servosTemp == old(servosTemp)
      && placa.Alvejados(0, if paradaTotalSolicitada then 6 else 0,
                         old(AlvosDaParada(tipoCmdMovServosPorQt == Varios && feedbackRastrServos == TemposDosServos)),
                         old(placa.Estados()), old(placa.Pulsos()), old(placa.AlvosDosServos()))
      && (!paradaTotalSolicitada ==> placa.movingState == old(placa.movingState) && placa.conta80ms == old(placa.conta80ms))
      && (var k := canalCmd1ServoNaoBloq;
          saida == old(saida)
                   + TextoDoFeedback(feedbackRastrServos, tipoCmdMovServosPorQt,
                                     if 0 <= k < 6 then servos[k].sigla else "",
                                     if 0 <= k < 6 then placa.canais[k].position else 0, old(placa.Posicoes())))
    }

    /**
     * Once the command in flight has stopped: the record cleared, the stop
     * request withdrawn, the targets committed, the speeds back after a
     * total stop, and the final reply with the positions reached written.
     */
    twostate predicate MovimentoConcluido()
      requires Ligados() && |servosTemp| == 6 && old(|servosTemp|) == 6 && old(RegistroOk(Registro()))
      reads this`saida, this`tipoCmdMovServosPorQt, this`ultCmdMovServos, this`strUltCmdMovServos,
            this`canalCmd1ServoNaoBloq, this`paradaTotalSolicitada, this`servosTemp, servos, placa.canais
    {
      Registro() == Resetado(old(Registro())) && !paradaTotalSolicitada
      && (forall i :: 0 <= i < 6 ==> servosTemp[i] == old(servosTemp[i]).(tempoPulsoAlvo := servos[i].tempoPulsoAlvo))
      && (forall i :: 0 <= i < 6 ==>
            placa.canais[i].speed == if old(paradaTotalSolicitada) then servos[i].velTmpPulso else old(placa.canais[i].speed))
      && saida == old(saida) + Resposta(RespostaDoFim(old(Registro()), Siglas(), old(placa.Posicoes())))
    }

    // -------------------------------------------------------------------
    // Start-up: the arm brought to rest

    /** The six channels' accelerations and speeds while the arm goes to rest. */
    const AceleracoesDeRepouso: seq<int> := [AceleracaoDeRepouso, AceleracaoDeRepouso, AceleracaoDeRepouso,
                                           AceleracaoDeRepouso, AceleracaoDeRepouso, AceleracaoDeRepouso]
    const VelocidadesDeRepouso: seq<int> := [VelocidadeDeRepouso, VelocidadeDeRepouso, VelocidadeDeRepouso,
                                          VelocidadeDeRepouso, VelocidadeDeRepouso, VelocidadeDeRepouso]

    /**
     * Step 0: the feedback mode saved and set to servo target feedback, and
     * every channel slowed down to acceleration 2 and speed 10.
     */
    method RepousoInicio()
      requires Valid()
      modifies this`frsTemp, this`feedbackRastrServos, this`estadoPosicaoRepouso,
               placa.Canais()`speed, placa.Canais()`acceleration
      ensures Valid() && estadoPosicaoRepouso == 2 && Desacelerado()
    {
      frsTemp := feedbackRastrServos;
      feedbackRastrServos := TemposDosServos;
      DefinirAceleracoesEVelocidades(AceleracoesDeRepouso, VelocidadesDeRepouso);
      estadoPosicaoRepouso := 2;
    }

    /**
     * Step 2: joint 0 sent to its rest pulse, recorded in flight as IN1 on
     * channel 0.
     */
    method RepousoJunta0()
      requires Valid()
      modifies this`estadoPosicaoRepouso, placa`conta80ms, placa`movingState, placa.canais[0], {servos[0]}`tempoPulsoCorrente,
               {servos[0]}`anguloCorrente, {servos[0]}`tempoPulsoAlvo,
               this`tipoCmdMovServosPorQt, this`ultCmdMovServos, this`strUltCmdMovServos, this`canalCmd1ServoNaoBloq
      ensures Valid() && estadoPosicaoRepouso == 3
      ensures AlvoDoCanalAplicado(0, old(servos[0].tempoPulsoRepouso) as real)
      ensures Registro() == RegistroMov(ApenasUm, CmdIN1, "IN1", 0)
    {
      ultCmdMovServos, strUltCmdMovServos := CmdIN1, "IN1";
      tipoCmdMovServosPorQt, canalCmd1ServoNaoBloq := ApenasUm, 0;
      estadoPosicaoRepouso := 3;
      MoverServo(0, servos[0].tempoPulsoRepouso as real);
    }

    /** The targets of step 4: every servo's rest pulse, the gripper's included. */
    function AlvosDaPosicaoDeRepouso(): (t: seq<real>)
      requires |servos| == 6
      reads servos`tempoPulsoRepouso
      ensures |t| == 6 && forall i :: 0 <= i < 6 ==> t[i] == servos[i].tempoPulsoRepouso as real
    {
      [servos[0].tempoPulsoRepouso as real, servos[1].tempoPulsoRepouso as real, servos[2].tempoPulsoRepouso as real,
       servos[3].tempoPulsoRepouso as real, servos[4].tempoPulsoRepouso as real, servos[5].tempoPulsoRepouso as real]
    }

    /**
     * Step 4 done with targets t: channels 1 .. 5 as SetarTarget leaves them,
     * channel 0 untouched, and servo 0's target rewritten to t[0].
     */
    twostate predicate BracoAlvejado(t: seq<real>)
      requires Ligados() && |t| == 6
      reads placa, placa.Canais(), placa.Servos()
    {
      (forall i :: 1 <= i < 6 ==>
         placa.AlvoAplicado(i, old(placa.canais[i].Atual()), old(placa.PulsoDoCanal(i)), t[i]))
      && placa.canais[0].Atual() == old(placa.canais[0].Atual()) && placa.PulsoDoCanal(0) == old(placa.PulsoDoCanal(0))
      && placa.canais[0].servo.tempoPulsoAlvo == t[0]
    }

    /**
     * Step 4: every servo's target set to its rest pulse, channels 1 .. 5
     * sent there, recorded in flight as the multi-servo command IN2.
     * Servo 0's target is written but its channel is not moved.
     */
    method RepousoBraco()
      requires Valid()
      modifies this`estadoPosicaoRepouso, placa`conta80ms, placa`movingState, placa.Canais(), placa.Servos()`tempoPulsoCorrente,
               placa.Servos()`anguloCorrente, placa.Servos()`tempoPulsoAlvo,
               this`tipoCmdMovServosPorQt, this`ultCmdMovServos, this`strUltCmdMovServos
      ensures Valid() && estadoPosicaoRepouso == 5
      ensures BracoAlvejado(old(AlvosDaPosicaoDeRepouso())) && MovimentoIniciado(1, 5, old(AlvosDaPosicaoDeRepouso()))
      ensures Registro() == old(Registro()).(tipo := Varios, ult := CmdIN2, str := "IN2")
    {
      var targets := AlvosDaPosicaoDeRepouso();
      ghost var e, p := placa.Estados(), placa.Pulsos();
      GravarAlvoDoServo0(targets[0]);
      label Gravado:
      AcionarRepouso(targets);
      assert AlvosAplicados@Gravado(1, 5, targets) && MovimentoIniciado@Gravado(1, 5, targets);
      assert old@Gravado(placa.Estados()) == e && old@Gravado(placa.Pulsos()) == p;
    }

    /** Servo 0's target written; the channels and the servos' readings are kept. */
    method GravarAlvoDoServo0(v: real)
      requires Valid()
      modifies {servos[0]}`tempoPulsoAlvo
      ensures Valid() && placa.Estados() == old(placa.Estados()) && placa.Pulsos() == old(placa.Pulsos())
      ensures placa.canais[0].servo.tempoPulsoAlvo == v
    {
      servos[0].tempoPulsoAlvo := v;
    }

    /**
     * Channels 1 .. 5 given targets, IN2 recorded in flight (the record's
     * channel left as it is), and the start-up sequence at step 5.
     */
    method AcionarRepouso(targets: seq<real>)
      requires Valid() && |targets| == 6
      modifies this`estadoPosicaoRepouso, placa`conta80ms, placa`movingState, placa.Canais(), placa.Servos()`tempoPulsoCorrente,
               placa.Servos()`anguloCorrente, placa.Servos()`tempoPulsoAlvo,
               this`tipoCmdMovServosPorQt, this`ultCmdMovServos, this`strUltCmdMovServos
      ensures Valid() && estadoPosicaoRepouso == 5 && saida == old(saida)
      ensures AlvosAplicados(1, 5, targets) && MovimentoIniciado(1, 5, targets)
      ensures Registro() == old(Registro()).(tipo := Varios, ult := CmdIN2, str := "IN2")
    {
      placa.SetMultipleTargets(5, 1, targets);
      assert AlvosAplicados(1, 5, targets) && MovimentoIniciado(1, 5, targets);
      ultCmdMovServos, strUltCmdMovServos, tipoCmdMovServosPorQt, estadoPosicaoRepouso := CmdIN2, "IN2", Varios, 5;
    }

    /**
     * Step 6: every channel back to its servo's acceleration and speed, the
     * feedback mode saved in step 0 restored, and [PRONTO] written.
     */
    method RepousoFim()
      requires Valid()
      modifies this`saida, this`feedbackRastrServos, this`estadoPosicaoRepouso,
               placa.Canais()`speed, placa.Canais()`acceleration
      ensures Valid() && estadoPosicaoRepouso == 1 && Pronto()
    {
      DefinirAceleracoesEVelocidades(Aceleracoes(), Velocidades());
      feedbackRastrServos := frsTemp;
      saida := saida + [Linha("[PRONTO]")];
      estadoPosicaoRepouso := 1;
    }

    /** Step 0 done: the feedback mode saved and set to servo targets, every channel slowed down. */
    twostate predicate Desacelerado()
      requires |placa.canais| == 6
      reads this`frsTemp, this`feedbackRastrServos, placa.canais
    {
      frsTemp == old(feedbackRastrServos) && feedbackRastrServos == TemposDosServos
      && forall i :: 0 <= i < 6 ==>
           placa.canais[i].acceleration == AceleracaoDeRepouso && placa.canais[i].speed == VelocidadeDeRepouso
    }

    /** Step 6 done: the servos' accelerations and speeds back, the feedback mode restored, [PRONTO] written. */
    twostate predicate Pronto()
      requires |placa.canais| == 6 && |servos| == 6
      reads this`frsTemp, this`feedbackRastrServos, this`saida, placa.canais, servos
    {
      feedbackRastrServos == frsTemp && saida == old(saida) + [Linha("[PRONTO]")]
      && forall i :: 0 <= i < 6 ==>
           placa.canais[i].acceleration == servos[i].acelTmpPulso && placa.canais[i].speed == servos[i].velTmpPulso
    }

    /** Steps 3 and 5: the start-up sequence moves on to proximo once no servo command is in flight and the timer is out. */
    method RepousoEspera(proximo: int, timerAtivo: bool)
      requires Valid()
      modifies this`estadoPosicaoRepouso
      ensures Valid()
      ensures estadoPosicaoRepouso
        == if tipoCmdMovServosPorQt == Nenhum && !timerAtivo then proximo else old(estadoPosicaoRepouso)
    {
      if tipoCmdMovServosPorQt == Nenhum && !timerAtivo {
        estadoPosicaoRepouso := proximo;
      }
    }

    /**
     * PosicaoRepouso: one step of the start-up sequence that brings the arm
     * to rest, as ProximoEstado moves it, with the work of that step; the
     * timer that paces the waits is the input timerAtivo.
     */
    method PosicaoRepouso(timerAtivo: bool)
      requires Valid()
      modifies this`saida, this`frsTemp, this`feedbackRastrServos, this`estadoPosicaoRepouso,
               this`tipoCmdMovServosPorQt, this`ultCmdMovServos, this`strUltCmdMovServos, this`canalCmd1ServoNaoBloq,
               placa`conta80ms, placa`movingState, placa.Canais(), placa.Servos()`tempoPulsoCorrente,
               placa.Servos()`anguloCorrente, placa.Servos()`tempoPulsoAlvo
      ensures Valid()
      ensures estadoPosicaoRepouso
        == ProximoEstado(old(estadoPosicaoRepouso), old(tipoCmdMovServosPorQt) != Nenhum, timerAtivo)
      ensures old(estadoPosicaoRepouso) == 0 ==> Desacelerado()
      ensures old(estadoPosicaoRepouso) == 2 ==>
        AlvoDoCanalAplicado(0, old(servos[0].tempoPulsoRepouso) as real)
        && Registro() == RegistroMov(ApenasUm, CmdIN1, "IN1", 0)
      ensures old(estadoPosicaoRepouso) == 4 ==>
        BracoAlvejado(old(AlvosDaPosicaoDeRepouso())) && MovimentoIniciado(1, 5, old(AlvosDaPosicaoDeRepouso()))
        && Registro() == old(Registro()).(tipo := Varios, ult := CmdIN2, str := "IN2")
      ensures old(estadoPosicaoRepouso) == 6 ==> Pronto()
      ensures old(estadoPosicaoRepouso) !in {0, 2, 4, 6} ==>
        saida == old(saida) && Registro() == old(Registro()) && unchanged(placa, placa.Canais(), placa.Servos())
    {
      var e := estadoPosicaoRepouso;
      if e == 0 {
        RepousoInicio();
      } else if e == 2 {
        RepousoJunta0();
      } else if e == 3 {
        RepousoEspera(4, timerAtivo);
      } else if e == 4 {
        RepousoBraco();
      } else if e == 5 {
        RepousoEspera(6, timerAtivo);
      } else if e == 6 {
        RepousoFim();
      }
    }

    // -------------------------------------------------------------------
    // The decoder (DecodificaProtocolo)

    /**
     * [JST...]: by its length the frame lists the targets (5), reads one
     * servo's target (6) or sets up to six targets (10, 15, ... 35); any
     * other length gets [JST NAK].
     */
    method ComandoJst()
      requires Valid() && Identificados(servos)
      modifies this`resposta, this`saida, placa`conta80ms, placa`movingState, placa.Canais(),
               placa.Servos()`tempoPulsoCorrente, placa.Servos()`anguloCorrente, placa.Servos()`tempoPulsoAlvo,
               this`tipoCmdMovServosPorQt, this`ultCmdMovServos, this`strUltCmdMovServos, this`canalCmd1ServoNaoBloq
      ensures Valid()
      ensures var n := old(|bufferProto|);
        n > 35 || n < 5 || (n % 5 != 0 && n != 6) ==>
          saida == old(saida) + Resposta(Nak("JST")) && unchanged(placa, placa.Canais(), placa.Servos())
          && Registro() == old(Registro())
      ensures old(|bufferProto|) in {5, 6} ==> Registro() == old(Registro())
    {
      var n := |bufferProto|;
      if n > 35 || n < 5 || (n % 5 != 0 && n != 6) {
        RespostaComando(Nak("JST"));
      } else if n == 5 {
        JstConsulta();
      } else if n == 6 {
        JstUmServo();
      } else {
        JstAjustar();
      }
    }

    /** The commands that move servos: GA, GF, CTZ, JST, RPS and DSL. */
    method DecodificaMovimento(c: ComandoProto)
      requires Valid() && Identificados(servos) && dataReady && c in {CmdGA, CmdGF, CmdCTZ, CmdJST, CmdRPS, CmdDSL}
      requires QuadroDoComando(bufferProto, MnemonicoDe(c))
      modifies this`comando, this`resposta, this`saida, placa`conta80ms, placa`movingState, placa.Canais(),
               placa.Servos()`tempoPulsoCorrente, placa.Servos()`anguloCorrente, placa.Servos()`tempoPulsoAlvo,
               this`tipoCmdMovServosPorQt, this`ultCmdMovServos, this`strUltCmdMovServos, this`canalCmd1ServoNaoBloq
      ensures Valid()
    {
      ServosDaPlaca();
      if c == CmdGA || c == CmdGF {
        ComandoGarra(c);
      } else if c == CmdCTZ {
        ComandoCtz();
      } else if c == CmdJST {
        ComandoJst();
      } else if c == CmdRPS {
        ComandoRps();
      } else {
        ComandoDsl();
      }
    }

    /** The commands that configure a servo: TMX, TMN, T90, TRP, VEL and ACL. */
    method DecodificaConfiguracao(c: ComandoProto)
      requires Valid() && dataReady && c in {CmdTMX, CmdTMN, CmdT90, CmdTRP, CmdVEL, CmdACL}
      requires QuadroSelecionavel(bufferProto)
      modifies this`indexServo, this`bufferProto, this`saida, this`servosTemp,
               placa.Canais()`speed, placa.Canais()`acceleration,
               placa.Servos()`tempoPulsoMax, placa.Servos()`tempoPulsoMin, placa.Servos()`tempoPulsoPosNeutra,
               placa.Servos()`tempoPulsoRepouso, placa.Servos()`velTmpPulso, placa.Servos()`acelTmpPulso
      ensures Valid()
    {
      if c == CmdVEL {
        ComandoVel();
      } else if c == CmdACL {
        ComandoAcl();
      } else {
        ComandoTempo(c);
      }
    }

    /** Commands that neither move a servo nor change its configuration: LED, PRT, FRS, CSB and ECH. */
    method DecodificaModos(c: ComandoProto)
      requires Valid() && dataReady && c in {CmdLED, CmdPRT, CmdFRS, CmdCSB, CmdECH}
      requires QuadroDoComando(bufferProto, MnemonicoDe(c))
      modifies this`bufferLeds, this`bufferProto, this`saida, this`paradaTotalSolicitada, this`feedbackRastrServos,
               this`comandosServosBloqueantes, this`ecoCaracteresAtivado, placa.Canais()`speed
      ensures Valid()
    {
      if c == CmdLED {
        ComandoLed();
      } else if c == CmdPRT {
        ComandoPrt();
      } else if c == CmdFRS {
        ComandoFrs();
      } else if c == CmdCSB {
        ComandoCsb();
      } else {
        ComandoEch();
      }
    }

    /** The status and reset commands: EMM, GTP, GMS, STT and RST. */
    method DecodificaEstado(c: ComandoProto)
      requires Valid() && c in {CmdEMM, CmdGTP, CmdGMS, CmdSTT, CmdRST}
      modifies this`saida, this`servosTemp, this`estadoPosicaoRepouso,
               placa.Canais()`speed, placa.Canais()`acceleration, placa.Canais()`max, placa.Canais()`min,
               placa.Servos()`tempoPulsoAlvo, placa.Servos()`tempoPulsoMax, placa.Servos()`tempoPulsoMin,
               placa.Servos()`tempoPulsoPosNeutra, placa.Servos()`tempoPulsoRepouso,
               placa.Servos()`velTmpPulso, placa.Servos()`acelTmpPulso, placa.Servos()`coefAngular,
               placa.Servos()`offsetAngular, placa.Servos()`conversaoTempoParaAnguloAtiva
      ensures Valid()
    {
      if c == CmdEMM {
        ComandoEmm();
      } else if c == CmdGTP {
        ComandoGtp();
      } else if c == CmdGMS {
        ComandoGms();
      } else if c == CmdSTT {
        ComandoStt();
      } else {
        ComandoRst();
      }
    }

    /** Runs the handler of command c on the ready frame; CmdNone is answered [CMD NAK]. */
    method Executar(c: ComandoProto)
      requires Valid() && Identificados(servos) && dataReady && c != CmdIN1 && c != CmdIN2
      requires c != CmdNone ==> QuadroDoComando(bufferProto, MnemonicoDe(c))
      modifies this`comando, this`resposta, this`indexServo, this`bufferLeds, this`bufferProto, this`saida,
               this`paradaTotalSolicitada, this`feedbackRastrServos, this`comandosServosBloqueantes,
               this`ecoCaracteresAtivado, this`servosTemp, this`estadoPosicaoRepouso,
               this`tipoCmdMovServosPorQt, this`ultCmdMovServos, this`strUltCmdMovServos, this`canalCmd1ServoNaoBloq,
               placa`conta80ms, placa`movingState, placa.Canais(), placa.Servos()
      ensures Valid()
      ensures c == CmdNone ==>
        saida == old(saida) + Resposta(CmdNak) && unchanged(placa, placa.Canais(), placa.Servos())
    {
      if c == CmdNone {
        RespostaComando(CmdNak);
      } else if c in {CmdGA, CmdGF, CmdCTZ, CmdJST, CmdRPS, CmdDSL} {
        DecodificaMovimento(c);
      } else if c in {CmdTMX, CmdTMN, CmdT90, CmdTRP, CmdVEL, CmdACL} {
        SelecionavelDoComando(bufferProto, MnemonicoDe(c));
        DecodificaConfiguracao(c);
      } else if c in {CmdLED, CmdPRT, CmdFRS, CmdCSB, CmdECH} {
        DecodificaModos(c);
      } else {
        DecodificaEstado(c);
      }
    }

    /**
     * DecodificaProtocolo: runs the handler of the first mnemonic the ready
     * frame names, or replies [CMD NAK] when it names none, leaving the
     * board untouched. What each handler does is stated by the handler.
     */
    method DecodificaProtocolo()
      requires Valid() && Identificados(servos) && dataReady
      modifies this`comando, this`resposta, this`indexServo, this`bufferLeds, this`bufferProto, this`saida,
               this`paradaTotalSolicitada, this`feedbackRastrServos, this`comandosServosBloqueantes,
               this`ecoCaracteresAtivado, this`servosTemp, this`estadoPosicaoRepouso,
               this`tipoCmdMovServosPorQt, this`ultCmdMovServos, this`strUltCmdMovServos, this`canalCmd1ServoNaoBloq,
               placa`conta80ms, placa`movingState, placa.Canais(), placa.Servos()
      ensures Valid()
      ensures Despacho(old(bufferProto)) == CmdNone ==>
        saida == old(saida) + Resposta(CmdNak) && unchanged(placa, placa.Canais(), placa.Servos())
    {
      var c := Despacho(bufferProto);
      DespachoSemRepouso(bufferProto);
      if c != CmdNone {
        QuadroDespachado(bufferProto);
      }
      Executar(c);
    }

    // -------------------------------------------------------------------
    // The main loop (Update)

    /**
     * The protocol's turn once the arm is at rest: a ready frame is decoded
     * and released; otherwise one character is received, unless servo
     * commands are blocking and one is still in flight.
     */
    method AtenderProtocolo()
      requires Valid() && Identificados(servos)
      modifies this`comando, this`resposta, this`indexServo, this`bufferLeds, this`bufferProto, this`saida,
               this`paradaTotalSolicitada, this`feedbackRastrServos, this`comandosServosBloqueantes,
               this`ecoCaracteresAtivado, this`servosTemp, this`estadoPosicaoRepouso, this`bfRecebe, this`flagProtocolo, this`dataReady, this`ultimoCharRecebido,
               this`tipoCmdMovServosPorQt, this`ultCmdMovServos, this`strUltCmdMovServos, this`canalCmd1ServoNaoBloq,
               placa`conta80ms, placa`movingState, placa.Canais(), placa.Servos()
      ensures Valid()
      ensures old(dataReady) ==> !dataReady && bfRecebe == old(bfRecebe)
      ensures !old(dataReady) && old(comandosServosBloqueantes) && old(tipoCmdMovServosPorQt) != Nenhum ==>
        unchanged(this) && unchanged(placa, placa.Canais(), placa.Servos())
      ensures !old(dataReady) && (!old(comandosServosBloqueantes) || old(tipoCmdMovServosPorQt) == Nenhum) ==>
        (old(bfRecebe) == [] ==> bfRecebe == [] && Rx() == old(Rx()))
        && (old(bfRecebe) != [] ==> bfRecebe == old(bfRecebe)[1..] && Rx() == Receber(old(Rx()), old(bfRecebe)[0]))
    {
      if dataReady {
        DecodificaProtocolo();
        dataReady := false;
      } else if !comandosServosBloqueantes || tipoCmdMovServosPorQt == Nenhum {
        RecebeCaracteresDoProtocolo();
      }
    }

    /** The part of Update before the feedback: the protocol's turn at rest, a start-up step before that. */
    method Turno(timerAtivo: bool)
      requires Valid() && Identificados(servos)
      modifies this`comando, this`resposta, this`indexServo, this`bufferLeds, this`bufferProto, this`saida,
               this`paradaTotalSolicitada, this`feedbackRastrServos, this`comandosServosBloqueantes,
               this`ecoCaracteresAtivado, this`servosTemp, this`estadoPosicaoRepouso, this`frsTemp,
               this`bfRecebe, this`flagProtocolo, this`dataReady, this`ultimoCharRecebido,
               this`tipoCmdMovServosPorQt, this`ultCmdMovServos, this`strUltCmdMovServos, this`canalCmd1ServoNaoBloq,
               placa`conta80ms, placa`movingState, placa.Canais(), placa.Servos()
      ensures Valid()
      ensures old(estadoPosicaoRepouso) != 1 ==>
        estadoPosicaoRepouso == ProximoEstado(old(estadoPosicaoRepouso), old(tipoCmdMovServosPorQt) != Nenhum, timerAtivo)
      ensures old(estadoPosicaoRepouso) == 1 && old(dataReady) ==> !dataReady
      ensures old(estadoPosicaoRepouso) == 1 && !old(dataReady) ==>
        if old(comandosServosBloqueantes) && old(tipoCmdMovServosPorQt) != Nenhum then bfRecebe == old(bfRecebe)
        else old(bfRecebe) != [] ==> bfRecebe == old(bfRecebe)[1..]
    {
      if estadoPosicaoRepouso == 1 {
        AtenderProtocolo();
      } else {
        PosicaoRepouso(timerAtivo);
      }
    }

    /**
     * Update, one turn of the robot's main loop: with the serial port open,
     * the protocol's turn once the arm is at rest, a step of the start-up
     * sequence before that, and then the feedback of the servo command in
     * flight. The port's state and the start-up timer are the inputs
     * serialAberta and timerAtivo.
     */
    method Update(serialAberta: bool, timerAtivo: bool)
      requires Valid() && Identificados(servos)
      modifies this`comando, this`resposta, this`indexServo, this`bufferLeds, this`bufferProto, this`saida,
               this`paradaTotalSolicitada, this`feedbackRastrServos, this`comandosServosBloqueantes,
               this`ecoCaracteresAtivado, this`servosTemp, this`estadoPosicaoRepouso, this`frsTemp,
               this`bfRecebe, this`flagProtocolo, this`dataReady, this`ultimoCharRecebido,
               this`tipoCmdMovServosPorQt, this`ultCmdMovServos, this`strUltCmdMovServos, this`canalCmd1ServoNaoBloq,
               placa`conta80ms, placa`movingState, placa.Canais(), placa.Servos()
      ensures Valid()
      ensures !serialAberta ==> unchanged(this) && unchanged(placa, placa.Canais(), placa.Servos())
      ensures serialAberta && old(estadoPosicaoRepouso) != 1 ==>
        estadoPosicaoRepouso == ProximoEstado(old(estadoPosicaoRepouso), old(tipoCmdMovServosPorQt) != Nenhum, timerAtivo)
      ensures serialAberta && old(estadoPosicaoRepouso) == 1 && old(dataReady) ==> !dataReady
      ensures serialAberta && old(estadoPosicaoRepouso) == 1 && !old(dataReady) ==>
        if old(comandosServosBloqueantes) && old(tipoCmdMovServosPorQt) != Nenhum then bfRecebe == old(bfRecebe)
        else old(bfRecebe) != [] ==> bfRecebe == old(bfRecebe)[1..]
    {
      if serialAberta {
        Turno(timerAtivo);
        RespEFeedbackMovServos();
      }
    }
  }
}
