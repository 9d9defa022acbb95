// The simulated Pololu Mini Maestro 24 servo controller
// (PlacaMiniMaestro24.cs): six channels driven by a 10 ms timer, the target
// commands and the getters. Each method is proved against the pure
// per-channel functions of module Perfil.

module Placa {
  import opened Servomotor
  import opened Perfil
  import opened Canal

  /** Whether one of channels primeiro .. fim-1, from states e0, starts a motion on getting its target from targets. */
  predicate AlgumMoveu(primeiro: int, fim: int, e0: seq<Estado>, targets: seq<real>)
    requires 0 <= primeiro && fim <= |e0| && fim <= |targets|
  {
    exists i :: primeiro <= i < fim && SetarTargetSpec(e0[i], Quartos(targets[i])).moveu
  }

  /** Six new channels, channel i driving servos[i]. */
  method NovosCanais(servos: seq<Servo>) returns (canais: seq<CanalMiniMaestro>)
    requires |servos| == 6
    ensures |canais| == 6
    ensures forall i :: 0 <= i < 6 ==> fresh(canais[i]) && canais[i].servo == servos[i]
    ensures forall i :: 0 <= i < 6 ==> canais[i].Atual() == EstadoInicial
    ensures forall i, j :: 0 <= i < j < 6 ==> canais[i] != canais[j]
  {
    canais := [];
    for i := 0 to 6
      invariant |canais| == i
      invariant forall j :: 0 <= j < i ==> fresh(canais[j]) && canais[j].servo == servos[j]
      invariant forall j :: 0 <= j < i ==> canais[j].Atual() == EstadoInicial
      invariant forall j, k :: 0 <= j < k < i ==> canais[j] != canais[k]
    {
      var c := new CanalMiniMaestro(servos[i]);
      canais := canais + [c];
    }
  }

  class PlacaMiniMaestro24 {
    const canais: seq<CanalMiniMaestro>
    /** Ticks since the last 80 ms boundary. */
    var conta80ms: int
    /** 1 while at least one channel is moving, 0 otherwise. */
    var movingState: int

    /** Six channels, each its own object driving its own servo. */
    ghost predicate CanaisDistintos()
    {
      |canais| == 6
      && (forall i, j :: 0 <= i < j < 6 ==> canais[i] != canais[j] && canais[i].servo != canais[j].servo)
    }

    ghost predicate Valid()
      reads this`conta80ms, this`movingState
    {
      CanaisDistintos()
      && 0 <= conta80ms < 8
      && (movingState == 0 || movingState == 1)
    }

    ghost function Canais(): set<CanalMiniMaestro>
    {
      set i | 0 <= i < |canais| :: canais[i]
    }

    ghost function Servos(): set<Servo>
    {
      set c | c in canais :: c.servo
    }

    /** The board with its six channels, channel i driving servos[i]. */
    constructor (servos: seq<Servo>)
      requires |servos| == 6
      requires forall i, j :: 0 <= i < j < 6 ==> servos[i] != servos[j]
      ensures Valid()
      ensures forall i :: 0 <= i < 6 ==> fresh(canais[i]) && canais[i].servo == servos[i]
      ensures forall i :: 0 <= i < 6 ==> canais[i].Atual() == EstadoInicial
      ensures conta80ms == 0 && movingState == 0
    {
      var cs := NovosCanais(servos);
      canais := cs;
      conta80ms := 0;
      movingState := 0;
    }

    /** The six channels' positions, in units of 0.25 us. */
    ghost function Posicoes(): (ps: seq<int>)
      requires |canais| == 6
      reads canais
      ensures |ps| == 6 && forall i :: 0 <= i < 6 ==> ps[i] == canais[i].position
    {
      [canais[0].position, canais[1].position, canais[2].position,
       canais[3].position, canais[4].position, canais[5].position]
    }

    /** The six channels' states. */
    ghost function Estados(): (e: seq<Estado>)
      requires |canais| == 6
      reads canais
      ensures |e| == 6 && forall i :: 0 <= i < 6 ==> e[i] == canais[i].Atual()
    {
      [canais[0].Atual(), canais[1].Atual(), canais[2].Atual(),
       canais[3].Atual(), canais[4].Atual(), canais[5].Atual()]
    }

    /** What the servos of the six channels show. */
    ghost function Pulsos(): (p: seq<Pulso>)
      requires |canais| == 6
      reads Servos()`tempoPulsoCorrente, Servos()`anguloCorrente
      ensures |p| == 6 && forall i :: 0 <= i < 6 ==> p[i] == PulsoDoCanal(i)
    {
      [PulsoDoCanal(0), PulsoDoCanal(1), PulsoDoCanal(2), PulsoDoCanal(3), PulsoDoCanal(4), PulsoDoCanal(5)]
    }

    /** The target pulses, in us, of the servos of the six channels. */
    ghost function AlvosDosServos(): (a: seq<real>)
      requires |canais| == 6
      reads Servos()`tempoPulsoAlvo
      ensures |a| == 6 && forall i :: 0 <= i < 6 ==> a[i] == canais[i].servo.tempoPulsoAlvo
    {
      [canais[0].servo.tempoPulsoAlvo, canais[1].servo.tempoPulsoAlvo, canais[2].servo.tempoPulsoAlvo,
       canais[3].servo.tempoPulsoAlvo, canais[4].servo.tempoPulsoAlvo, canais[5].servo.tempoPulsoAlvo]
    }

    /** What the servo bound to channel i shows. */
    function PulsoDoCanal(i: int): Pulso
      requires 0 <= i < |canais|
      reads canais[i].servo`tempoPulsoCorrente, canais[i].servo`anguloCorrente
    {
      canais[i].servo.Leitura()
    }

    /**
     * Channel i and its servo are as SetarTarget(i, target4) leaves them,
     * starting from channel state s0 and servo reading p0.
     */
    ghost predicate AlvoAplicado(i: int, s0: Estado, p0: Pulso, target4: real)
      requires 0 <= i < |canais|
      reads canais[i], canais[i].servo
    {
      var r := SetarTargetSpec(s0, Quartos(target4));
      canais[i].Atual() == r.estado
      && PulsoDoCanal(i) == canais[i].Escrito(p0, r.escritas)
      && canais[i].servo.tempoPulsoAlvo == r.estado.target as real / 4.0
    }

    /**
     * Channel i and its servo are as one tick leaves them, starting from
     * channel state s0 and servo reading p0.
     */
    ghost predicate PassoAplicado(i: int, s0: Estado, p0: Pulso, contou80ms: bool)
      requires 0 <= i < |canais|
      reads canais[i], canais[i].servo
    {
      var r := Passo(s0, contou80ms);
      canais[i].Atual() == r.estado
      && PulsoDoCanal(i) == canais[i].EscritoNoPasso(p0, r)
    }

    /**
     * Sets the target of a channel to target4 us without starting the timer;
     * returns whether a motion was started.
     */
    method SetarTarget(canal: int, target4: real) returns (moveu: bool)
      requires Valid() && 0 <= canal < 6
      modifies this`conta80ms, canais[canal], canais[canal].servo`tempoPulsoCorrente,
               canais[canal].servo`anguloCorrente, canais[canal].servo`tempoPulsoAlvo
      ensures Valid() && conta80ms == 0
      ensures moveu == SetarTargetSpec(old(canais[canal].Atual()), Quartos(target4)).moveu
      ensures AlvoAplicado(canal, old(canais[canal].Atual()), old(PulsoDoCanal(canal)), target4)
      ensures forall j :: 0 <= j < 6 && j != canal ==>
        canais[j].Atual() == old(canais[j].Atual()) && PulsoDoCanal(j) == old(PulsoDoCanal(j))
        && canais[j].servo.tempoPulsoAlvo == old(canais[j].servo.tempoPulsoAlvo)
    {
      // The counter is reset right after the new target is stored; no other
      // write of SetarTarget depends on it, so it is reset first here.
      conta80ms := 0;
      ghost var w := PrepararAlvo(canal, Quartos(target4));
      ghost var pr := Preparar(old(canais[canal].Atual()), Quartos(target4));
      moveu := DirecionarCanal(canal, old(PulsoDoCanal(canal)), w);
      DirecionarMantemAlvo(pr.estado, w);
    }

    /**
     * The first half of SetarTarget: the new target alvo (in units of
     * 0.25 us), the position jump and the clamp.
     */
    method PrepararAlvo(canal: int, alvo: int) returns (ghost w: seq<int>)
      requires CanaisDistintos() && 0 <= canal < 6
      modifies canais[canal], canais[canal].servo`tempoPulsoCorrente,
               canais[canal].servo`anguloCorrente, canais[canal].servo`tempoPulsoAlvo
      ensures var pr := Preparar(old(canais[canal].Atual()), alvo);
        canais[canal].Atual() == pr.estado && w == pr.escritas
        && canais[canal].servo.tempoPulsoAlvo == pr.estado.target as real / 4.0
        && PulsoDoCanal(canal) == canais[canal].Escrito(old(PulsoDoCanal(canal)), w)
    {
      var c := canais[canal];
      ghost var p0 := PulsoDoCanal(canal);
      w := [];
      c.SetTarget(alvo);
      var position, target := c.position, c.target;
      if position == 0 {
        c.SetPosition(target);
        c.EscritoMais(p0, w, target);
        w := w + [target];
        position := target;
      }
      if target == 0 {
        c.SetPosition(0);
        c.EscritoMais(p0, w, 0);
        w := w + [0];
        position := 0;
      } else if target > c.max {
        target := c.max;
        c.SetTarget(target);
      } else if target < c.min {
        target := c.min;
        c.SetTarget(target);
      }
    }

    /**
     * The second half of SetarTarget: direction, speed and acceleration set-up
     * for the motion from the channel's position to its (clamped) target.
     * p0 and w are the servo reading before SetarTarget and the Position
     * writes already made by it.
     */
    method DirecionarCanal(canal: int, ghost p0: Pulso, ghost w: seq<int>) returns (moveu: bool)
      requires CanaisDistintos() && 0 <= canal < 6
      requires PulsoDoCanal(canal) == canais[canal].Escrito(p0, w)
      modifies canais[canal], canais[canal].servo`tempoPulsoCorrente, canais[canal].servo`anguloCorrente
      ensures var r := Direcionar(old(canais[canal].Atual()), w);
        canais[canal].Atual() == r.estado && moveu == r.moveu
        && PulsoDoCanal(canal) == canais[canal].Escrito(p0, r.escritas)
    {
      var c := canais[canal];
      var position, target := c.position, c.target;
      if target > position {
        moveu := MovimentoPositivo(canal, p0, w);
      } else if target < position {
        moveu := MovimentoNegativo(canal, p0, w);
      } else {
        c.sinalVel := 0;
        c.sinalAcel := 0;
        c.accelerationCurr := 0;
        c.speedCurr := 0;
        c.inverteSinalVelocidade := false;
        c.speedCurrNoLimit := 0;
        c.positionMedia2 := target + position;
        moveu := false;
      }
    }

    /** SetarTarget towards a target above the position. */
    method MovimentoPositivo(canal: int, ghost p0: Pulso, ghost w: seq<int>) returns (moveu: bool)
      requires CanaisDistintos() && 0 <= canal < 6
      requires PulsoDoCanal(canal) == canais[canal].Escrito(p0, w)
      requires canais[canal].target > canais[canal].position
      modifies canais[canal], canais[canal].servo`tempoPulsoCorrente, canais[canal].servo`anguloCorrente
      ensures var r := Direcionar(old(canais[canal].Atual()), w);
        canais[canal].Atual() == r.estado && moveu == r.moveu
        && PulsoDoCanal(canal) == canais[canal].Escrito(p0, r.escritas)
    {
      var c := canais[canal];
      var speed, acceleration, position, target := c.speed, c.acceleration, c.position, c.target;
      if acceleration > 0 {
        c.sinalAcel := 1;
        c.accelerationCurr := c.sinalAcel * acceleration;
        if c.speedCurrNoLimit >= 0 {
          c.sinalVel := 1;
          c.inverteSinalVelocidade := false;
        } else {
          c.speedCurrNoLimit := c.speedCurr;
          c.inverteSinalVelocidade := true;
        }
        c.positionMedia2 := target + position;
      } else {
        c.sinalAcel := 0;
        c.accelerationCurr := 0;
        if c.speed > 0 {
          c.sinalVel := 1;
          c.speedCurr := c.sinalVel * speed;
        } else {
          c.sinalVel := 0;
          c.speedCurr := 0;
          c.SetPosition(target);
          c.EscritoMais(p0, w, target);
          return false;
        }
        c.inverteSinalVelocidade := false;
        c.speedCurrNoLimit := c.speedCurr;
        c.positionMedia2 := target + position;
      }
      return true;
    }

    /** SetarTarget towards a target below the position. */
    method MovimentoNegativo(canal: int, ghost p0: Pulso, ghost w: seq<int>) returns (moveu: bool)
      requires CanaisDistintos() && 0 <= canal < 6
      requires PulsoDoCanal(canal) == canais[canal].Escrito(p0, w)
      requires canais[canal].target < canais[canal].position
      modifies canais[canal], canais[canal].servo`tempoPulsoCorrente, canais[canal].servo`anguloCorrente
      ensures var r := Direcionar(old(canais[canal].Atual()), w);
        canais[canal].Atual() == r.estado && moveu == r.moveu
        && PulsoDoCanal(canal) == canais[canal].Escrito(p0, r.escritas)
    {
      var c := canais[canal];
      var speed, acceleration, position, target := c.speed, c.acceleration, c.position, c.target;
      if acceleration > 0 {
        c.sinalAcel := -1;
        c.accelerationCurr := c.sinalAcel * acceleration;
        if c.speedCurrNoLimit > 0 {
          c.speedCurrNoLimit := c.speedCurr;
          c.inverteSinalVelocidade := true;
        } else {
          c.sinalVel := -1;
          c.inverteSinalVelocidade := false;
        }
        c.positionMedia2 := target + position;
      } else {
        c.sinalAcel := 0;
        c.accelerationCurr := 0;
        if c.speed > 0 {
          c.sinalVel := -1;
          c.speedCurr := c.sinalVel * speed;
        } else {
          c.sinalVel := 0;
          c.speedCurr := 0;
          c.SetPosition(target);
          c.EscritoMais(p0, w, target);
          return false;
        }
        c.inverteSinalVelocidade := false;
        c.speedCurrNoLimit := c.speedCurr;
        c.positionMedia2 := target + position;
      }
      return true;
    }

    /** Sets the target of a channel and, when a motion starts, marks the board as moving. */
    method SetTarget(canal: int, target4: real)
      requires Valid() && 0 <= canal < 6
      modifies this`conta80ms, this`movingState, canais[canal], canais[canal].servo`tempoPulsoCorrente,
               canais[canal].servo`anguloCorrente, canais[canal].servo`tempoPulsoAlvo
      ensures Valid() && conta80ms == 0
      ensures AlvoAplicado(canal, old(canais[canal].Atual()), old(PulsoDoCanal(canal)), target4)
      ensures movingState == if SetarTargetSpec(old(canais[canal].Atual()), Quartos(target4)).moveu then 1 else old(movingState)
      ensures forall j :: 0 <= j < 6 && j != canal ==>
        canais[j].Atual() == old(canais[j].Atual()) && PulsoDoCanal(j) == old(PulsoDoCanal(j))
        && canais[j].servo.tempoPulsoAlvo == old(canais[j].servo.tempoPulsoAlvo)
    {
      var moveu := SetarTarget(canal, target4);
      if moveu {
        movingState := 1;
      }
    }

    /**
     * Sets the targets of channels primeiroCanal .. primeiroCanal+numTargets-1,
     * channel i to targets[i]; the board is marked as moving when at least one
     * of them starts a motion.
     */
    method SetMultipleTargets(numTargets: int, primeiroCanal: int, targets: seq<real>)
      requires Valid() && 0 <= primeiroCanal && 0 <= numTargets && primeiroCanal + numTargets <= 6
      requires |targets| >= primeiroCanal + numTargets
      modifies this`conta80ms, this`movingState, canais, Servos()`tempoPulsoCorrente, Servos()`anguloCorrente,
               Servos()`tempoPulsoAlvo
      ensures Valid()
      ensures conta80ms == if numTargets > 0 then 0 else old(conta80ms)
      ensures forall i :: primeiroCanal <= i < primeiroCanal + numTargets ==>
        AlvoAplicado(i, old(canais[i].Atual()), old(PulsoDoCanal(i)), targets[i])
      ensures forall i :: 0 <= i < 6 && !(primeiroCanal <= i < primeiroCanal + numTargets) ==>
        canais[i].Atual() == old(canais[i].Atual()) && PulsoDoCanal(i) == old(PulsoDoCanal(i))
        && canais[i].servo.tempoPulsoAlvo == old(canais[i].servo.tempoPulsoAlvo)
      ensures movingState ==
        if exists i :: primeiroCanal <= i < primeiroCanal + numTargets
                       && SetarTargetSpec(old(canais[i].Atual()), Quartos(targets[i])).moveu
        then 1 else old(movingState)
    {
      var result := AlvejarCanais(numTargets, primeiroCanal, targets);
      if result {
        movingState := 1;
      }
    }

    /**
     * The loop of SetMultipleTargets: SetarTarget on each channel of the
     * range, whatever the earlier calls returned; returns whether one of them
     * started a motion.
     */
    method AlvejarCanais(numTargets: int, primeiroCanal: int, targets: seq<real>) returns (result: bool)
      requires Valid() && 0 <= primeiroCanal && 0 <= numTargets && primeiroCanal + numTargets <= 6
      requires |targets| >= primeiroCanal + numTargets
      modifies this`conta80ms, canais, Servos()`tempoPulsoCorrente, Servos()`anguloCorrente, Servos()`tempoPulsoAlvo
      ensures Valid()
      ensures conta80ms == if numTargets > 0 then 0 else old(conta80ms)
      ensures forall i :: primeiroCanal <= i < primeiroCanal + numTargets ==>
        AlvoAplicado(i, old(canais[i].Atual()), old(PulsoDoCanal(i)), targets[i])
      ensures forall i :: 0 <= i < 6 && !(primeiroCanal <= i < primeiroCanal + numTargets) ==>
        canais[i].Atual() == old(canais[i].Atual()) && PulsoDoCanal(i) == old(PulsoDoCanal(i))
        && canais[i].servo.tempoPulsoAlvo == old(canais[i].servo.tempoPulsoAlvo)
      ensures result <==> exists i :: primeiroCanal <= i < primeiroCanal + numTargets
                                    && SetarTargetSpec(old(canais[i].Atual()), Quartos(targets[i])).moveu
    {
      ghost var e0, p0, a0 := Fotografar();
      result := false;
      for i := primeiroCanal to primeiroCanal + numTargets
        invariant CanaisDistintos() && 0 <= conta80ms < 8
        invariant conta80ms == if i > primeiroCanal then 0 else old(conta80ms)
        invariant Alvejados(primeiroCanal, i, targets, e0, p0, a0)
        invariant result <==> exists j :: primeiroCanal <= j < i && SetarTargetSpec(e0[j], Quartos(targets[j])).moveu
      {
        result := AlvejarCanal(primeiroCanal, i, targets, result, e0, p0, a0);
      }
    }

    /**
     * The loop of SetMultipleTargets has set the targets of channels
     * primeiro .. i-1 from states e0, servo readings p0 and servo targets a0;
     * the other channels are as they were.
     */
    ghost predicate Alvejados(primeiro: int, i: int, targets: seq<real>, e0: seq<Estado>, p0: seq<Pulso>, a0: seq<real>)
      requires CanaisDistintos()
      reads canais, Servos()
    {
      0 <= primeiro <= i <= 6 && |targets| >= i && |e0| == 6 && |p0| == 6 && |a0| == 6
      && (forall j {:trigger AlvoAplicado(j, e0[j], p0[j], targets[j])} :: primeiro <= j < i ==>
            AlvoAplicado(j, e0[j], p0[j], targets[j]))
      && (forall j :: 0 <= j < 6 && !(primeiro <= j < i) ==>
            canais[j].Atual() == e0[j] && PulsoDoCanal(j) == p0[j] && canais[j].servo.tempoPulsoAlvo == a0[j])
    }

    /** Alvejados says nothing of the servo targets a0 of the channels set. */
    lemma AlvejadosOutrosAlvos(primeiro: int, targets: seq<real>, e0: seq<Estado>, p0: seq<Pulso>, a1: seq<real>, a0: seq<real>)
      requires CanaisDistintos() && Alvejados(primeiro, 6, targets, e0, p0, a1)
      requires |a0| == 6 && forall j :: 0 <= j < primeiro ==> a0[j] == a1[j]
      ensures Alvejados(primeiro, 6, targets, e0, p0, a0)
    {
    }

    /**
     * The body of the loop of SetMultipleTargets for channel i: result tells
     * whether one of the channels primeiro .. i-1 started a motion.
     */
    method AlvejarCanal(primeiro: int, i: int, targets: seq<real>, result: bool, ghost e0: seq<Estado>,
                        ghost p0: seq<Pulso>, ghost a0: seq<real>) returns (result': bool)
      requires Valid() && i < 6 && Alvejados(primeiro, i, targets, e0, p0, a0) && |targets| > i
      requires result <==> exists j :: primeiro <= j < i && SetarTargetSpec(e0[j], Quartos(targets[j])).moveu
      modifies this`conta80ms, canais[i], canais[i].servo`tempoPulsoCorrente,
               canais[i].servo`anguloCorrente, canais[i].servo`tempoPulsoAlvo
      ensures Valid() && conta80ms == 0
      ensures Alvejados(primeiro, i + 1, targets, e0, p0, a0)
      ensures result' <==> exists j :: primeiro <= j < i + 1 && SetarTargetSpec(e0[j], Quartos(targets[j])).moveu
    {
      var moveu := SetarTarget(i, targets[i]);
      result' := moveu || result;
    }

    /** The state of every channel and its servo, as ghost values. */
    ghost method Fotografar() returns (e0: seq<Estado>, p0: seq<Pulso>, a0: seq<real>)
      requires CanaisDistintos()
      ensures |e0| == 6 && |p0| == 6 && |a0| == 6
      ensures forall j :: 0 <= j < 6 ==>
        e0[j] == canais[j].Atual() && p0[j] == PulsoDoCanal(j) && a0[j] == canais[j].servo.tempoPulsoAlvo
    {
      e0 := seq(6, j requires 0 <= j < 6 reads if 0 <= j < 6 then {canais[j]} else {} => canais[j].Atual());
      p0 := seq(6, j requires 0 <= j < 6 reads if 0 <= j < 6 then {canais[j].servo} else {} => PulsoDoCanal(j));
      a0 := seq(6, j requires 0 <= j < 6 reads if 0 <= j < 6 then {canais[j].servo} else {} => canais[j].servo.tempoPulsoAlvo);
    }

    /** Sets the maximum speed of a channel; always succeeds. */
    method SetSpeed(canal: int, vel: int) returns (ok: bool)
      requires Valid() && 0 <= canal < 6
      modifies {canais[canal]}`speed
      ensures canais[canal].speed == vel && ok
    {
      canais[canal].speed := vel;
      return true;
    }

    /** Sets the acceleration of a channel; always succeeds. */
    method SetAcceleration(canal: int, accel: int) returns (ok: bool)
      requires Valid() && 0 <= canal < 6
      modifies {canais[canal]}`acceleration
      ensures canais[canal].acceleration == accel && ok
    {
      canais[canal].acceleration := accel;
      return true;
    }

    /** The current position of a channel, in units of 0.25 us. */
    method GetPosition(canal: int) returns (p: int)
      requires Valid() && 0 <= canal < 6
      ensures p == canais[canal].position
    {
      return canais[canal].position;
    }

    /** 1 while some channel is moving, 0 once every channel is stationary. */
    method GetMovingState() returns (m: int)
      requires Valid()
      ensures m == movingState && (m == 0 || m == 1)
    {
      return movingState;
    }

    /** The simulated board never reports an error. */
    method GetErrors() returns (e: int)
      ensures e == 0
    {
      var erro := 0x0000;
      return erro;
    }

    /**
     * One 10 ms tick of the board's timer: every eighth tick is an 80 ms
     * tick; each channel takes one step of its motion, and the board reports
     * moving exactly when some channel was not stationary.
     */
    method TimerElapsed()
      requires Valid()
      modifies this`conta80ms, this`movingState, canais, Servos()`tempoPulsoCorrente, Servos()`anguloCorrente
      ensures Valid()
      ensures var contou := Contou(old(conta80ms));
        conta80ms == Contar(old(conta80ms))
        && (forall i :: 0 <= i < 6 ==> PassoAplicado(i, old(canais[i].Atual()), old(PulsoDoCanal(i)), contou))
      ensures movingState == 0 <==>
        forall i :: 0 <= i < 6 ==> old(canais[i].sinalVel) == 0 || old(canais[i].position) == old(canais[i].target)
    {
      conta80ms := conta80ms + 1;
      var contou80ms := false;
      if conta80ms >= 8 {
        contou80ms := true;
        conta80ms := 0;
      }
      var todosParados := AvancarCanais(contou80ms);
      if todosParados {
        movingState := 0;
      } else {
        movingState := 1;
      }
    }

    /**
     * The loop of the tick: each channel takes one step of its motion;
     * returns whether every channel was stationary.
     */
    method AvancarCanais(contou80ms: bool) returns (todosParados: bool)
      requires CanaisDistintos()
      modifies canais, Servos()`tempoPulsoCorrente, Servos()`anguloCorrente
      ensures forall i :: 0 <= i < 6 ==> PassoAplicado(i, old(canais[i].Atual()), old(PulsoDoCanal(i)), contou80ms)
      ensures todosParados <==>
        forall i :: 0 <= i < 6 ==> old(canais[i].sinalVel) == 0 || old(canais[i].position) == old(canais[i].target)
    {
      todosParados := true;
      ghost var e0, p0, _ := Fotografar();
      for i := 0 to 6
        invariant Avancados(i, e0, p0, contou80ms)
        invariant todosParados <==> forall j :: 0 <= j < i ==> e0[j].sinalVel == 0 || e0[j].position == e0[j].target
      {
        todosParados := AvancarCanal(i, contou80ms, todosParados, e0, p0);
      }
    }

    /**
     * The timer loop has stepped channels 0 .. i-1 from states e0 and servo
     * readings p0; channels i .. 5 are as they were.
     */
    ghost predicate Avancados(i: int, e0: seq<Estado>, p0: seq<Pulso>, contou80ms: bool)
      requires CanaisDistintos()
      reads canais, Servos()
    {
      0 <= i <= 6 && |e0| == 6 && |p0| == 6
      && (forall j {:trigger PassoAplicado(j, e0[j], p0[j], contou80ms)} :: 0 <= j < i ==> PassoAplicado(j, e0[j], p0[j], contou80ms))
      && (forall j :: i <= j < 6 ==> canais[j].Atual() == e0[j] && PulsoDoCanal(j) == p0[j])
    }

    /**
     * The body of the timer loop for channel i: one step of that channel, the
     * others untouched; todosParados tells whether channels 0 .. i-1 were all
     * stationary.
     */
    method AvancarCanal(i: int, contou80ms: bool, todosParados: bool, ghost e0: seq<Estado>, ghost p0: seq<Pulso>)
      returns (todosParados': bool)
      requires CanaisDistintos() && 0 <= i < 6 && Avancados(i, e0, p0, contou80ms)
      requires todosParados <==> forall j :: 0 <= j < i ==> e0[j].sinalVel == 0 || e0[j].position == e0[j].target
      modifies canais[i], canais[i].servo`tempoPulsoCorrente, canais[i].servo`anguloCorrente
      ensures Avancados(i + 1, e0, p0, contou80ms)
      ensures todosParados' <==> forall j :: 0 <= j < i + 1 ==> e0[j].sinalVel == 0 || e0[j].position == e0[j].target
    {
      var parado := PassoDoCanal(i, contou80ms);
      PassoParado(e0[i], contou80ms);
      todosParados' := todosParados && parado;
    }

    /** One step of the motion of channel i. */
    method PassoDoCanal(i: int, contou80ms: bool) returns (parado: bool)
      requires CanaisDistintos() && 0 <= i < 6
      modifies canais[i], canais[i].servo`tempoPulsoCorrente, canais[i].servo`anguloCorrente
      ensures parado == Passo(old(canais[i].Atual()), contou80ms).parado
      ensures PassoAplicado(i, old(canais[i].Atual()), old(PulsoDoCanal(i)), contou80ms)
    {
      var c := canais[i];
      var target, position, positionMedia2, sinalVel := c.target, c.position, c.positionMedia2, c.sinalVel;
      var inverteSinalVelocidade := c.inverteSinalVelocidade;
      if ((sinalVel > 0 || (inverteSinalVelocidade && sinalVel < 0)) && position < target) ||
         ((sinalVel < 0 || (inverteSinalVelocidade && sinalVel > 0)) && position > target) {
        ghost var s0 := c.Atual();
        if c.acceleration > 0 {
          AcelerarCanal(i, contou80ms);
        }
        MoverCanal(i, s0, target, position, positionMedia2, inverteSinalVelocidade);
        parado := false;
      } else if (sinalVel > 0 && position > target) || (sinalVel < 0 && position < target) {
        ChegarAoAlvo(i);
        parado := false;
      } else {
        parado := true;
      }
    }

    /** The acceleration phase of a tick, for a moving channel with acceleration. */
    method AcelerarCanal(i: int, contou80ms: bool)
      requires CanaisDistintos() && 0 <= i < 6 && canais[i].acceleration > 0
      modifies canais[i]
      ensures canais[i].Atual() == FaseAceleracao(old(canais[i].Atual()), contou80ms)
    {
      var c := canais[i];
      var position, positionMedia2, sinalVel := c.position, c.positionMedia2, c.sinalVel;
      var inverteSinalVelocidade := c.inverteSinalVelocidade;
      if !inverteSinalVelocidade && ((sinalVel > 0 && 2 * position >= positionMedia2) ||
                                     (sinalVel < 0 && 2 * position <= positionMedia2)) {
        c.accelerationCurr := -1 * c.sinalAcel * c.acceleration;
      }
      if contou80ms {
        c.speedCurrNoLimit := c.speedCurrNoLimit + c.accelerationCurr;
        if inverteSinalVelocidade && ((c.sinalAcel > 0 && c.speedCurrNoLimit >= 0) ||
                                      (c.sinalAcel < 0 && c.speedCurrNoLimit <= 0)) {
          c.speedCurrNoLimit := 0;
          c.inverteSinalVelocidade := false;
          sinalVel := -1 * sinalVel;
          c.sinalVel := sinalVel;
        }
        if Abs(c.speedCurrNoLimit) <= c.speed || c.speed == 0 {
          c.speedCurr := c.speedCurrNoLimit;
        } else {
          c.speedCurr := c.sinalVel * c.speed;
        }
      }
    }

    /**
     * The movement phase of a tick for a moving channel; s0 is the channel as
     * it was at the start of the tick.
     */
    method MoverCanal(i: int, ghost s0: Estado, target: int, position: int, positionMedia2: int,
                      inverteSinalVelocidade: bool)
      requires CanaisDistintos() && 0 <= i < 6
      requires target == s0.target && position == s0.position && positionMedia2 == s0.positionMedia2
      requires inverteSinalVelocidade == s0.inverte
      requires canais[i].target == target && canais[i].position == position
      requires canais[i].min == s0.min && canais[i].max == s0.max
      modifies canais[i], canais[i].servo`tempoPulsoCorrente, canais[i].servo`anguloCorrente
      ensures var r := Mover(s0, old(canais[i].Atual()));
        canais[i].Atual() == r.estado && PulsoDoCanal(i) == canais[i].EscritoNoPasso(old(PulsoDoCanal(i)), r)
    {
      var c := canais[i];
      var sinalVel := c.sinalVel;
      if Abs(c.speedCurr) > 0 && Abs(target - position) >= Abs(c.speedCurr) {
        AvancarPosicao(i, s0, position, inverteSinalVelocidade);
      } else if Abs(c.speedCurr) > 0 {
        ChegarAoAlvo(i);
      } else if !inverteSinalVelocidade && ((sinalVel > 0 && 2 * position > positionMedia2) ||
                                            (sinalVel < 0 && 2 * position < positionMedia2)) {
        c.SetPosition(target);
        c.speedCurr := 0;
        c.speedCurrNoLimit := 0;
        c.sinalVel := 0;
        c.sinalAcel := 0;
      }
    }

    /**
     * A full step of a moving channel: the position advances by the current
     * speed, clamped into [min, max]; reaching a limit completes a pending
     * reversal.
     */
    method AvancarPosicao(i: int, ghost s0: Estado, position: int, inverteSinalVelocidade: bool)
      requires CanaisDistintos() && 0 <= i < 6
      requires position == s0.position && inverteSinalVelocidade == s0.inverte
      requires canais[i].target == s0.target && canais[i].position == position
      requires canais[i].min == s0.min && canais[i].max == s0.max
      requires Abs(canais[i].speedCurr) > 0 && Abs(s0.target - position) >= Abs(canais[i].speedCurr)
      modifies canais[i], canais[i].servo`tempoPulsoCorrente, canais[i].servo`anguloCorrente
      ensures var r := Mover(s0, old(canais[i].Atual()));
        canais[i].Atual() == r.estado && PulsoDoCanal(i) == canais[i].Escrito(old(PulsoDoCanal(i)), [r.estado.position])
    {
      var c := canais[i];
      var novaPosicao, sinalVel := position + c.speedCurr, c.sinalVel;
      if novaPosicao < c.min {
        novaPosicao := c.min;
        if inverteSinalVelocidade {
          c.speedCurrNoLimit := 0;
          c.speedCurr := 0;
          c.inverteSinalVelocidade := false;
          sinalVel := -1 * sinalVel;
          c.sinalVel := sinalVel;
        }
      } else if novaPosicao > c.max {
        novaPosicao := c.max;
        if inverteSinalVelocidade {
          c.speedCurrNoLimit := 0;
          c.speedCurr := 0;
          c.inverteSinalVelocidade := false;
          sinalVel := -1 * sinalVel;
          c.sinalVel := sinalVel;
        }
      }
      c.SetPosition(novaPosicao);
    }

    /** The channel lands on its target and its whole rate state is cleared. */
    method ChegarAoAlvo(i: int)
      requires CanaisDistintos() && 0 <= i < 6
      modifies canais[i], canais[i].servo`tempoPulsoCorrente, canais[i].servo`anguloCorrente
      ensures canais[i].Atual() == Chega(old(canais[i].Atual()))
      ensures PulsoDoCanal(i) == canais[i].Escrito(old(PulsoDoCanal(i)), [old(canais[i].target)])
    {
      var c := canais[i];
      c.SetPosition(c.target);
      c.speedCurr := 0;
      c.speedCurrNoLimit := 0;
      c.sinalVel := 0;
      c.sinalAcel := 0;
      c.inverteSinalVelocidade := false;
    }
  }
}
