// The motion profile of one channel of the simulated Pololu Mini Maestro 24
// board (PlacaMiniMaestro24.cs), as pure functions on the channel's state:
// what a new target does to a channel (SetarTarget) and what one 10 ms tick
// of the board's timer does to it (the body of the loop in timer_Elapsed).
// Positions, targets, speeds and accelerations are in units of 0.25 us.

module Perfil {

  function Abs(x: int): nat { if x < 0 then -x else x }

  function Sinal(x: int): int { if x > 0 then 1 else if x < 0 then -1 else 0 }

  /**
   * The fields of one channel that the motion engine reads and writes.
   * positionMedia2 is twice the source's positionMedia (the midpoint of the
   * motion), so that it stays an integer.
   */
  datatype Estado = Estado(
    position: int, target: int, min: int, max: int,
    speed: int, acceleration: int,
    sinalVel: int, sinalAcel: int,
    speedCurr: int, speedCurrNoLimit: int, accelerationCurr: int,
    positionMedia2: int,
    inverte: bool)

  /** A new channel: everything zero, no reversal pending. */
  const EstadoInicial := Estado(0, 0, 0, 0, 0, 0, 0, 0, 0, 0, 0, 0, false)

  /** The direction signs only take the values -1, 0 and 1. */
  predicate SinaisOk(s: Estado)
  {
    -1 <= s.sinalVel <= 1 && -1 <= s.sinalAcel <= 1
  }

  /** The configuration a motion never changes: limits, speed and acceleration. */
  predicate MesmaConfiguracao(s: Estado, t: Estado)
  {
    t.min == s.min && t.max == s.max && t.speed == s.speed && t.acceleration == s.acceleration
  }

  /**
   * The outcome of SetarTarget: the new channel state, whether a motion was
   * started (its return value) and the values written, in order, to the
   * channel's Position (each write is passed on to the bound servo).
   */
  datatype NovoAlvo = NovoAlvo(estado: Estado, moveu: bool, escritas: seq<int>)

  /**
   * The position a new target is approached from: a channel that was never
   * driven (position 0) first jumps to the unclamped target, and target 0
   * switches the channel off at position 0.
   */
  function PosicaoDePartida(s: Estado, alvo: int): int
  {
    if alvo == 0 then 0 else if s.position == 0 then alvo else s.position
  }

  /**
   * A pulse time in us as the board stores it, in units of 0.25 us. The
   * robot only ever sends multiples of 0.25 us, for which this is exact.
   */
  function Quartos(us: real): int
  {
    (4.0 * us).Floor
  }

  /**
   * SetarTarget(canal, target4) applied to the state of that channel, where
   * alvo is the requested target already in units of 0.25 us (target4 * 4).
   */
  function SetarTargetSpec(s: Estado, alvo: int): NovoAlvo
  {
    var pr := Preparar(s, alvo);
    Direcionar(pr.estado, pr.escritas)
  }

  /** The first half of SetarTarget: the position jump, and the target clamp or switch-off. */
  datatype Preparo = Preparo(estado: Estado, escritas: seq<int>)

  function Preparar(s: Estado, alvo: int): Preparo
  {
    var p1 := if s.position == 0 then alvo else s.position;
    var w1 := if s.position == 0 then [alvo] else [];
    var t := if alvo == 0 then 0 else if alvo > s.max then s.max else if alvo < s.min then s.min else alvo;
    var p := if alvo == 0 then 0 else p1;
    var w := if alvo == 0 then w1 + [0] else w1;
    Preparo(s.(target := t, position := p), w)
  }

  /**
   * The second half of SetarTarget: the direction, speed and acceleration
   * set-up for going from s.position to s.target; w are the Position writes
   * already made.
   */
  function Direcionar(s: Estado, w: seq<int>): NovoAlvo
  {
    var t, p := s.target, s.position;
    if t > p then
      if s.acceleration > 0 then
        var s2 := if s.speedCurrNoLimit >= 0 then s.(sinalVel := 1, inverte := false)
                  else s.(speedCurrNoLimit := s.speedCurr, inverte := true);
        NovoAlvo(s2.(sinalAcel := 1, accelerationCurr := s.acceleration, positionMedia2 := t + p), true, w)
      else if s.speed > 0 then
        NovoAlvo(s.(sinalAcel := 0, accelerationCurr := 0, sinalVel := 1, speedCurr := s.speed,
                    inverte := false, speedCurrNoLimit := s.speed, positionMedia2 := t + p), true, w)
      else
        NovoAlvo(s.(sinalAcel := 0, accelerationCurr := 0, sinalVel := 0, speedCurr := 0, position := t), false, w + [t])
    else if t < p then
      if s.acceleration > 0 then
        var s2 := if s.speedCurrNoLimit > 0 then s.(speedCurrNoLimit := s.speedCurr, inverte := true)
                  else s.(sinalVel := -1, inverte := false);
        NovoAlvo(s2.(sinalAcel := -1, accelerationCurr := -s.acceleration, positionMedia2 := t + p), true, w)
      else if s.speed > 0 then
        NovoAlvo(s.(sinalAcel := 0, accelerationCurr := 0, sinalVel := -1, speedCurr := -s.speed,
                    inverte := false, speedCurrNoLimit := -s.speed, positionMedia2 := t + p), true, w)
      else
        NovoAlvo(s.(sinalAcel := 0, accelerationCurr := 0, sinalVel := 0, speedCurr := 0, position := t), false, w + [t])
    else
      NovoAlvo(s.(sinalVel := 0, sinalAcel := 0, accelerationCurr := 0, speedCurr := 0, inverte := false,
                  speedCurrNoLimit := 0, positionMedia2 := t + p), false, w)
  }

  /** The direction set-up never changes the target. */
  lemma DirecionarMantemAlvo(s: Estado, w: seq<int>)
    ensures Direcionar(s, w).estado.target == s.target
  {
  }

  /**
   * The requested target (in units of 0.25 us) is stored clamped into
   * [min, max]; target 0 is kept and switches the channel off at position 0.
   */
  lemma SetarTargetAlvo(s: Estado, alvo: int)
    ensures var r := SetarTargetSpec(s, alvo); var t := r.estado.target;
      (alvo == 0 ==> t == 0 && r.estado.position == 0 && !r.moveu)
      && (alvo != 0 && s.min <= s.max ==> s.min <= t <= s.max)
      && (alvo != 0 && s.min <= alvo <= s.max ==> t == alvo)
  {
  }

  /**
   * A motion starts exactly when there is a distance to cover and a speed or
   * an acceleration to cover it with; otherwise the channel is at its target
   * at once, and with no distance its rate state is cleared.
   */
  lemma SetarTargetMovimento(s: Estado, alvo: int)
    ensures var r := SetarTargetSpec(s, alvo); var t := r.estado.target; var p := PosicaoDePartida(s, alvo);
      (r.moveu <==> t != p && (s.acceleration > 0 || s.speed > 0))
      && (r.moveu ==> r.estado.position == p && r.estado.positionMedia2 == t + p)
      && (!r.moveu ==> r.estado.position == t)
      && (t == p ==> r.estado.speedCurr == 0 && r.estado.speedCurrNoLimit == 0 && r.estado.sinalVel == 0
                     && r.estado.sinalAcel == 0 && r.estado.accelerationCurr == 0 && !r.estado.inverte)
  {
  }

  /** Without acceleration a motion runs at the maximum speed from the start. */
  lemma SetarTargetSemAceleracao(s: Estado, alvo: int)
    ensures var r := SetarTargetSpec(s, alvo); var t := r.estado.target; var p := PosicaoDePartida(s, alvo);
      r.moveu && s.acceleration <= 0 ==>
        r.estado.sinalVel == Sinal(t - p) && r.estado.speedCurr == Sinal(t - p) * s.speed
        && r.estado.speedCurrNoLimit == r.estado.speedCurr && !r.estado.inverte
        && r.estado.sinalAcel == 0 && r.estado.accelerationCurr == 0
  {
  }

  /**
   * With acceleration, a target against the current speed is a reversal:
   * the direction is kept and the current speed decelerated through zero
   * first; otherwise the channel accelerates towards the target.
   */
  lemma SetarTargetReversao(s: Estado, alvo: int)
    ensures var r := SetarTargetSpec(s, alvo); var t := r.estado.target; var p := PosicaoDePartida(s, alvo);
      r.moveu && s.acceleration > 0 ==>
        r.estado.sinalAcel == Sinal(t - p) && r.estado.accelerationCurr == Sinal(t - p) * s.acceleration
        && r.estado.speedCurr == s.speedCurr
        && (r.estado.inverte <==> (if t > p then s.speedCurrNoLimit < 0 else s.speedCurrNoLimit > 0))
        && (r.estado.inverte ==> r.estado.sinalVel == s.sinalVel && r.estado.speedCurrNoLimit == s.speedCurr)
        && (!r.estado.inverte ==> r.estado.sinalVel == Sinal(t - p) && r.estado.speedCurrNoLimit == s.speedCurrNoLimit)
  {
  }

  /**
   * Every change of position is written to the channel's Position (and so
   * passed on to the servo), the last write being the final position; the
   * configuration and the range of the signs are kept.
   */
  lemma SetarTargetEscritas(s: Estado, alvo: int)
    ensures var r := SetarTargetSpec(s, alvo);
      (r.estado.position != s.position ==> |r.escritas| > 0)
      && (|r.escritas| > 0 ==> r.escritas[|r.escritas| - 1] == r.estado.position)
      && MesmaConfiguracao(s, r.estado)
      && (SinaisOk(s) ==> SinaisOk(r.estado))
  {
  }

  /**
   * Whether the channel is heading for its target: its speed sign points at
   * the target, or points away from it while a reversal is pending.
   */
  predicate EmMovimento(s: Estado)
  {
    ((s.sinalVel > 0 || (s.inverte && s.sinalVel < 0)) && s.position < s.target) ||
    ((s.sinalVel < 0 || (s.inverte && s.sinalVel > 0)) && s.position > s.target)
  }

  /**
   * The acceleration phase of a tick for a moving channel: past the midpoint
   * the acceleration turns into a deceleration; every eighth tick (80 ms) the
   * acceleration is integrated into the speed, a pending reversal completes
   * when that speed crosses zero, and the speed is limited to the channel's
   * maximum speed (0 means no limit).
   */
  function FaseAceleracao(s: Estado, contou80ms: bool): Estado
  {
    if s.acceleration > 0 then
      var acc := if !s.inverte && ((s.sinalVel > 0 && 2 * s.position >= s.positionMedia2) ||
                                   (s.sinalVel < 0 && 2 * s.position <= s.positionMedia2))
                 then -1 * s.sinalAcel * s.acceleration else s.accelerationCurr;
      var a := s.(accelerationCurr := acc);
      if contou80ms then
        var nl := a.speedCurrNoLimit + acc;
        var b := if s.inverte && ((a.sinalAcel > 0 && nl >= 0) || (a.sinalAcel < 0 && nl <= 0))
                 then a.(speedCurrNoLimit := 0, inverte := false, sinalVel := -s.sinalVel)
                 else a.(speedCurrNoLimit := nl);
        b.(speedCurr := if Abs(b.speedCurrNoLimit) <= b.speed || b.speed == 0 then b.speedCurrNoLimit
                        else b.sinalVel * b.speed)
      else a
    else s
  }

  /** The speed a moving channel is advanced by in this tick. */
  function VelocidadeDoPasso(s: Estado, contou80ms: bool): int
  {
    FaseAceleracao(s, contou80ms).speedCurr
  }

  /** The channel reaches its target and its whole rate state is cleared. */
  function Chega(s: Estado): Estado
  {
    s.(position := s.target, speedCurr := 0, speedCurrNoLimit := 0, sinalVel := 0, sinalAcel := 0, inverte := false)
  }

  /**
   * The outcome of one tick for a channel: its new state, whether it was
   * stationary, and whether its Position was written.
   */
  datatype ResultadoPasso = ResultadoPasso(estado: Estado, parado: bool, escreveu: bool)

  /** The Position writes a step makes: its new position, when it moved the channel. */
  function EscritasDoPasso(r: ResultadoPasso): seq<int>
  {
    if r.escreveu then [r.estado.position] else []
  }

  /** One 10 ms tick of the board's timer, for one channel. */
  function Passo(s: Estado, contou80ms: bool): ResultadoPasso
  {
    if EmMovimento(s) then
      Mover(s, FaseAceleracao(s, contou80ms))
    else if (s.sinalVel > 0 && s.position > s.target) || (s.sinalVel < 0 && s.position < s.target) then
      ResultadoPasso(Chega(s), false, true)
    else
      ResultadoPasso(s, true, false)
  }

  /**
   * The movement phase of a tick for a moving channel: s is the channel at
   * the start of the tick and s1 after its acceleration phase. The channel
   * advances by its speed (clamped into [min, max], completing a pending
   * reversal at a limit), or lands on its target when the step would pass
   * it, or, having no speed left past the midpoint, is put on its target.
   */
  function Mover(s: Estado, s1: Estado): ResultadoPasso
  {
    var sv := s1.sinalVel;
    if Abs(s1.speedCurr) > 0 && Abs(s.target - s.position) >= Abs(s1.speedCurr) then
      var p := s.position + s1.speedCurr;
      var fora := p < s.min || p > s.max;
      var s2 := if fora && s.inverte
                then s1.(speedCurrNoLimit := 0, speedCurr := 0, inverte := false, sinalVel := -sv)
                else s1;
      var p2 := if p < s.min then s.min else if p > s.max then s.max else p;
      ResultadoPasso(s2.(position := p2), false, true)
    else if Abs(s1.speedCurr) > 0 then
      ResultadoPasso(Chega(s1), false, true)
    else if !s.inverte && ((sv > 0 && 2 * s.position > s.positionMedia2) || (sv < 0 && 2 * s.position < s.positionMedia2)) then
      ResultadoPasso(s1.(position := s.target, speedCurr := 0, speedCurrNoLimit := 0, sinalVel := 0, sinalAcel := 0),
                     false, true)
    else
      ResultadoPasso(s1, false, false)
  }

  /**
   * A channel is stationary in a tick exactly when it has no direction or is
   * at its target, and a stationary channel is left untouched.
   */
  lemma PassoParado(s: Estado, contou80ms: bool)
    ensures var r := Passo(s, contou80ms);
      (r.parado <==> s.sinalVel == 0 || s.position == s.target)
      && (r.parado ==> r.estado == s && !r.escreveu)
      && (!r.escreveu ==> r.estado.position == s.position)
  {
  }

  /**
   * An advancing step moves the channel by its current speed, clamped into
   * [min, max]; any Position a tick writes is the target or inside [min, max].
   */
  lemma PassoLimitado(s: Estado, contou80ms: bool)
    ensures var r := Passo(s, contou80ms); var v := VelocidadeDoPasso(s, contou80ms);
      (EmMovimento(s) && 0 < Abs(v) <= Abs(s.target - s.position) ==>
         r.escreveu && r.estado.position == (if s.position + v < s.min then s.min
                                             else if s.position + v > s.max then s.max else s.position + v))
      && (s.min <= s.max && r.escreveu ==> r.estado.position == s.target || s.min <= r.estado.position <= s.max)
  {
  }

  /**
   * A step that would pass the target lands on it and clears the whole rate
   * state, and so does a channel found beyond its target in its direction of
   * travel.
   */
  lemma PassoChegada(s: Estado, contou80ms: bool)
    ensures var r := Passo(s, contou80ms);
      (EmMovimento(s) && Abs(s.target - s.position) < Abs(VelocidadeDoPasso(s, contou80ms)) ==>
         r.escreveu && r.estado == Chega(FaseAceleracao(s, contou80ms)))
      && (!s.inverte && ((s.sinalVel > 0 && s.position > s.target) || (s.sinalVel < 0 && s.position < s.target)) ==>
         r.escreveu && r.estado == Chega(s))
  {
  }

  /**
   * The speed only changes on 80 ms ticks (apart from being cleared), and
   * once limited it never exceeds the channel's maximum speed.
   */
  lemma PassoVelocidade(s: Estado, contou80ms: bool)
    ensures var r := Passo(s, contou80ms);
      (!contou80ms ==>
         (r.estado.speedCurr == s.speedCurr || r.estado.speedCurr == 0)
         && (r.estado.speedCurrNoLimit == s.speedCurrNoLimit || r.estado.speedCurrNoLimit == 0))
      && (contou80ms && s.acceleration > 0 && s.speed > 0 && SinaisOk(s) && EmMovimento(s) ==>
         Abs(r.estado.speedCurr) <= s.speed)
  {
  }

  /** A tick keeps the target and the configuration, and the signs in {-1, 0, 1}. */
  lemma PassoPreserva(s: Estado, contou80ms: bool)
    ensures var r := Passo(s, contou80ms);
      r.estado.target == s.target && MesmaConfiguracao(s, r.estado)
      && (SinaisOk(s) ==> SinaisOk(r.estado))
  {
  }

  /** The 80 ms counter after one more tick: it wraps to 0 when it reaches 8. */
  function Contar(c: int): int
  {
    if c + 1 >= 8 then 0 else c + 1
  }

  /** Whether the tick that follows counter value c is an 80 ms tick. */
  predicate Contou(c: int)
  {
    c + 1 >= 8
  }

  /** n ticks of a channel that is not on an 80 ms boundary. */
  function Iterar(s: Estado, n: nat): Estado
    decreases n
  {
    if n == 0 then s else Iterar(Passo(s, false).estado, n - 1)
  }

  /** A channel stationary in a tick stays as it is for any number of ticks. */
  lemma {:induction false} ParadoPermanece(s: Estado, n: nat)
    requires Passo(s, false).parado
    ensures Iterar(s, n) == s
  {
    PassoParado(s, false);
    if n > 0 {
      ParadoPermanece(s, n - 1);
    }
  }

  /** The number of ticks needed to cover distance d at speed v. */
  function Ticks(d: nat, v: nat): nat
    requires v > 0
    decreases d
  {
    if d == 0 then 0 else if d <= v then 1 else 1 + Ticks(d - v, v)
  }

  /** Ticks(d, v) is d/v rounded up: the least n with n * v >= d. */
  lemma {:induction false} TicksArredonda(d: nat, v: nat)
    requires v > 0
    ensures var n := Ticks(d, v);
      (d == 0 ==> n == 0) && (d > 0 ==> (n - 1) * v < d <= n * v)
    decreases d
  {
    if d > v {
      TicksArredonda(d - v, v);
      var n := Ticks(d - v, v);
      assert (n + 1 - 1) * v == n * v;
      assert (n + 1) * v == n * v + v;
    }
  }

  /** Without acceleration, whether the tick is an 80 ms tick does not matter. */
  lemma SemAceleracaoIgnora80ms(s: Estado)
    requires s.acceleration <= 0
    ensures Passo(s, true) == Passo(s, false)
  {
  }

  /** A channel running at constant speed s.speed towards its target. */
  predicate VelocidadeConstante(s: Estado)
  {
    s.acceleration <= 0 && s.speed > 0
    && ((s.sinalVel == 1 && s.position < s.target) || (s.sinalVel == -1 && s.position > s.target))
    && s.speedCurr == s.sinalVel * s.speed
    && s.min <= s.position <= s.max && s.min <= s.target <= s.max
  }

  /** One tick at constant speed: a full step while the target is far enough, else arrival. */
  lemma PassoVelocidadeConstante(s: Estado)
    requires VelocidadeConstante(s)
    ensures Abs(s.target - s.position) < s.speed ==> Passo(s, false).estado == Chega(s)
    ensures Abs(s.target - s.position) >= s.speed ==>
      Passo(s, false).estado == s.(position := s.position + s.sinalVel * s.speed)
  {
    assert FaseAceleracao(s, false) == s;
  }

  /**
   * A channel running at a constant speed towards a target inside [min, max]
   * reaches it after ceil(distance / speed) ticks and is then stationary.
   */
  lemma {:induction false} ConvergenciaVelocidadeConstante(s: Estado)
    requires VelocidadeConstante(s)
    ensures var f := Iterar(s, Ticks(Abs(s.target - s.position), s.speed));
      f.position == f.target == s.target
    decreases Abs(s.target - s.position)
  {
    var d := Abs(s.target - s.position);
    if d <= s.speed {
      var f := ChegadaVelocidadeConstante(s);
      assert Ticks(d, s.speed) == 1;
      assert Iterar(s, Ticks(d, s.speed)) == f;
    } else {
      var k1 := Ticks(d - s.speed, s.speed);
      var s1 := AvancoVelocidadeConstante(s, k1);
      ConvergenciaVelocidadeConstante(s1);
      assert Abs(s1.target - s1.position) == d - s.speed;
      assert Ticks(d, s.speed) == k1 + 1;
      assert Iterar(s, Ticks(d, s.speed)) == Iterar(s1, k1);
    }
  }

  /** The last tick at constant speed lands the channel on its target. */
  lemma ChegadaVelocidadeConstante(s: Estado) returns (f: Estado)
    requires VelocidadeConstante(s) && Abs(s.target - s.position) <= s.speed
    ensures Iterar(s, 1) == f && f.position == f.target == s.target
  {
    PassoVelocidadeConstante(s);
    f := Passo(s, false).estado;
    assert Iterar(s, 1) == Iterar(f, 0);
  }

  /** A full step at constant speed keeps the channel at constant speed, closer by one speed. */
  lemma AvancoVelocidadeConstante(s: Estado, k: nat) returns (s1: Estado)
    requires VelocidadeConstante(s) && Abs(s.target - s.position) > s.speed
    ensures Iterar(s, k + 1) == Iterar(s1, k)
    ensures VelocidadeConstante(s1) && s1.target == s.target && s1.speed == s.speed
    ensures Abs(s1.target - s1.position) == Abs(s.target - s.position) - s.speed
  {
    PassoVelocidadeConstante(s);
    s1 := Passo(s, false).estado;
  }

  /**
   * A target inside [min, max] given to a running channel without
   * acceleration is reached after ceil(distance / speed) ticks, at which
   * point the channel is stationary.
   */
  lemma {:induction false} ConvergenciaAposSetarTarget(s: Estado, alvo: int)
    requires s.acceleration <= 0 && s.speed > 0
    requires s.min <= s.position <= s.max && s.position != 0
    requires s.min <= alvo <= s.max && alvo != 0
    ensures var r := SetarTargetSpec(s, alvo);
      var f := Iterar(r.estado, Ticks(Abs(alvo - s.position), s.speed));
      f.position == alvo && Passo(f, false).parado
  {
    var r := SetarTargetSpec(s, alvo);
    var k := Ticks(Abs(alvo - s.position), s.speed);
    SetarTargetAlvo(s, alvo);
    SetarTargetMovimento(s, alvo);
    SetarTargetSemAceleracao(s, alvo);
    SetarTargetEscritas(s, alvo);
    if alvo == s.position {
      assert k == 0;
    } else {
      ConvergenciaVelocidadeConstante(r.estado);
    }
    PassoParado(Iterar(r.estado, k), false);
  }
}
