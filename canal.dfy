// One channel of the Mini Maestro board (CanalMiniMaestro.cs): its motion
// fields and the Position and Target setters, which pass every write on to
// the servomotor bound to the channel.

module Canal {
  import opened Servomotor
  import opened Perfil

  /**
   * What the bound servo shows after the channel's Position was written with
   * the values ws, in order: each write sets the servo's pulse time to a
   * quarter of the position (units of 0.25 us to us).
   */
  function PulsoAposEscritas(p: Pulso, ws: seq<int>, ativa: bool, coef: real, offset: real): (q: Pulso)
    ensures ws == [] ==> q == p
    ensures ws != [] ==> q.tempoPulsoCorrente == ws[|ws| - 1] as real / 4.0
    decreases |ws|
  {
    if ws == [] then p
    else EscrevePulso(PulsoAposEscritas(p, ws[..|ws| - 1], ativa, coef, offset), ws[|ws| - 1] as real / 4.0,
                      ativa, coef, offset)
  }

  /** What the bound servo shows after one step of the channel's motion. */
  function PulsoAposPasso(p: Pulso, r: ResultadoPasso, ativa: bool, coef: real, offset: real): (q: Pulso)
    ensures q == PulsoAposEscritas(p, EscritasDoPasso(r), ativa, coef, offset)
  {
    if r.escreveu then EscrevePulso(p, r.estado.position as real / 4.0, ativa, coef, offset) else p
  }

  class CanalMiniMaestro {
    var position: int
    var target: int
    /** Twice the midpoint of the current motion. */
    var positionMedia2: int
    var min: int
    var max: int
    var speed: int
    var acceleration: int
    var sinalVel: int
    var sinalAcel: int
    var speedCurr: int
    var accelerationCurr: int
    var speedCurrNoLimit: int
    var inverteSinalVelocidade: bool
    /** The servomotor this channel drives. */
    const servo: Servo

    constructor (servo: Servo)
      ensures this.servo == servo
      ensures Atual() == EstadoInicial
    {
      this.servo := servo;
      position, target, positionMedia2 := 0, 0, 0;
      min, max, speed, acceleration := 0, 0, 0, 0;
      sinalVel, sinalAcel, speedCurr, accelerationCurr, speedCurrNoLimit := 0, 0, 0, 0, 0;
      inverteSinalVelocidade := false;
    }

    /** The channel's motion fields as a value. */
    function Atual(): Estado
      reads this
    {
      Estado(position, target, min, max, speed, acceleration, sinalVel, sinalAcel,
             speedCurr, speedCurrNoLimit, accelerationCurr, positionMedia2, inverteSinalVelocidade)
    }

    /** The servo's reading after the Position writes ws, from reading p. */
    function Escrito(p: Pulso, ws: seq<int>): Pulso
      reads servo`conversaoTempoParaAnguloAtiva, servo`coefAngular, servo`offsetAngular
    {
      PulsoAposEscritas(p, ws, servo.conversaoTempoParaAnguloAtiva, servo.coefAngular, servo.offsetAngular)
    }

    /** One more Position write v after the writes ws. */
    lemma EscritoMais(p: Pulso, ws: seq<int>, v: int)
      ensures Escrito(Escrito(p, ws), [v]) == Escrito(p, ws + [v])
    {
      assert (ws + [v])[..|ws|] == ws;
    }

    /** The servo's reading after one step r of the channel's motion, from reading p. */
    function EscritoNoPasso(p: Pulso, r: ResultadoPasso): (q: Pulso)
      reads servo`conversaoTempoParaAnguloAtiva, servo`coefAngular, servo`offsetAngular
      ensures q == Escrito(p, EscritasDoPasso(r))
    {
      PulsoAposPasso(p, r, servo.conversaoTempoParaAnguloAtiva, servo.coefAngular, servo.offsetAngular)
    }

    /** The setter of Position. */
    method SetPosition(v: int)
      modifies this`position, servo`tempoPulsoCorrente, servo`anguloCorrente
      ensures Atual() == old(Atual()).(position := v)
      ensures servo.Leitura() == Escrito(old(servo.Leitura()), [v])
    {
      position := v;
      servo.SetTempoPulsoCorrente(position as real / 4.0);
    }

    /** The setter of Target: the bound servo's target pulse is the target in us. */
    method SetTarget(v: int)
      modifies this`target, servo`tempoPulsoAlvo
      ensures Atual() == old(Atual()).(target := v)
      ensures servo.tempoPulsoAlvo == v as real / 4.0
    {
      target := v;
      servo.tempoPulsoAlvo := target as real / 4.0;
    }
  }
}
