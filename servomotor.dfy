// The servomotor of one joint (Servomotor.cs): the pulse-time fields the
// protocol reads and writes, and the linear pulse-time-to-angle conversion
// calibrated when the robot starts.

module Servomotor {

  /** The angle (degrees) a linear conversion assigns to a pulse time (us). */
  function Angulo(coef: real, offset: real, t: real): real
  {
    coef * t + offset
  }

  datatype Calibracao = Calibracao(coef: real, offset: real)

  /**
   * The conversion computed for servo i when the robot starts: pulse time tMax
   * is mapped to aMax and tMin to aMin, or the other way round for a servo
   * mounted in inverse proportion.
   */
  function Calibrar(tMin: real, tMax: real, aMin: real, aMax: real, inversa: bool): (c: Calibracao)
    requires tMin != tMax
    ensures Angulo(c.coef, c.offset, tMax) == (if inversa then aMin else aMax)
    ensures Angulo(c.coef, c.offset, tMin) == (if inversa then aMax else aMin)
  {
    var coef := (if inversa then aMin - aMax else aMax - aMin) / (tMax - tMin);
    var offset := (if inversa then aMin else aMax) - tMax * coef;
    assert coef * (tMax - tMin) == (if inversa then aMin - aMax else aMax - aMin);
    Calibracao(coef, offset)
  }

  /**
   * Every pulse time inside [tMin, tMax] is converted to an angle inside
   * [aMin, aMax], whichever the direction of the conversion.
   */
  lemma {:induction false} CalibracaoNaFaixa(tMin: real, tMax: real, aMin: real, aMax: real, inversa: bool, t: real)
    requires tMin < tMax && aMin <= aMax && tMin <= t <= tMax
    ensures var c := Calibrar(tMin, tMax, aMin, aMax, inversa);
      aMin <= Angulo(c.coef, c.offset, t) <= aMax
  {
    var c := Calibrar(tMin, tMax, aMin, aMax, inversa);
    // The conversion is affine: the angle moves from one end of [aMin, aMax]
    // to the other as t moves from tMin to tMax.
    var a := Angulo(c.coef, c.offset, t);
    assert a - Angulo(c.coef, c.offset, tMin) == c.coef * (t - tMin);
    assert Angulo(c.coef, c.offset, tMax) - a == c.coef * (tMax - t);
    if inversa {
      assert c.coef <= 0.0;
      assert c.coef * (t - tMin) <= 0.0 && c.coef * (tMax - t) <= 0.0;
    } else {
      assert c.coef >= 0.0;
      assert c.coef * (t - tMin) >= 0.0 && c.coef * (tMax - t) >= 0.0;
    }
  }

  /** The pulse time last written to a servo and the angle it shows. */
  datatype Pulso = Pulso(tempoPulsoCorrente: real, anguloCorrente: real)

  /**
   * The effect of writing pulse time v: the angle follows the conversion when
   * it is active and v is non-zero; a zero pulse (servo off) keeps the angle.
   */
  function EscrevePulso(p: Pulso, v: real, ativa: bool, coef: real, offset: real): (q: Pulso)
    ensures q.tempoPulsoCorrente == v
    ensures !ativa || v == 0.0 ==> q.anguloCorrente == p.anguloCorrente
    ensures ativa && v != 0.0 ==> q.anguloCorrente == coef * v + offset
  {
    Pulso(v, if ativa && v != 0.0 then Angulo(coef, offset, v) else p.anguloCorrente)
  }

  class Servo {
    const nome: string
    const sigla: string
    /** The letter naming this servo in the JST command. */
    const idJST: string
    const anguloMin: real
    const anguloMax: real

    var tempoPulsoCorrente: real
    var anguloCorrente: real
    var difAnguloCorrenteDH: real
    var coefAngular: real
    var offsetAngular: real
    var conversaoTempoParaAnguloAtiva: bool
    var proporcaoInversaTmpPulsoParaAngulo: bool

    var tempoPulsoAlvo: real
    var tempoPulsoMax: int
    var tempoPulsoMin: int
    var tempoPulsoPosNeutra: int
    var tempoPulsoRepouso: int
    var velTmpPulso: int
    var acelTmpPulso: int

    constructor (nome: string, sigla: string, idJST: string, anguloMin: real, anguloMax: real,
                 difAnguloCorrenteDH: real, inversa: bool)
      ensures this.nome == nome && this.sigla == sigla && this.idJST == idJST
      ensures this.anguloMin == anguloMin && this.anguloMax == anguloMax
      ensures this.difAnguloCorrenteDH == difAnguloCorrenteDH
      ensures proporcaoInversaTmpPulsoParaAngulo == inversa
      ensures !conversaoTempoParaAnguloAtiva
      ensures tempoPulsoCorrente == 0.0 && anguloCorrente == 0.0
      ensures tempoPulsoAlvo == 0.0 && velTmpPulso == 0 && acelTmpPulso == 0
    {
      this.nome := nome;
      this.sigla := sigla;
      this.idJST := idJST;
      this.anguloMin := anguloMin;
      this.anguloMax := anguloMax;
      this.difAnguloCorrenteDH := difAnguloCorrenteDH;
      proporcaoInversaTmpPulsoParaAngulo := inversa;
      conversaoTempoParaAnguloAtiva := false;
      tempoPulsoCorrente := 0.0;
      anguloCorrente := 0.0;
      tempoPulsoAlvo := 0.0;
      velTmpPulso := 0;
      acelTmpPulso := 0;
    }

    function Leitura(): Pulso
      reads this`tempoPulsoCorrente, this`anguloCorrente
    {
      Pulso(tempoPulsoCorrente, anguloCorrente)
    }

    /** The setter of TempoPulsoCorrente. */
    method SetTempoPulsoCorrente(v: real)
      modifies this`tempoPulsoCorrente, this`anguloCorrente
      ensures Leitura() == EscrevePulso(old(Leitura()), v, conversaoTempoParaAnguloAtiva, coefAngular, offsetAngular)
    {
      tempoPulsoCorrente := v;
      if conversaoTempoParaAnguloAtiva && tempoPulsoCorrente != 0.0 {
        anguloCorrente := coefAngular * tempoPulsoCorrente + offsetAngular;
      }
    }

    /** The current angle in Denavit-Hartenberg terms: a fixed shift of the servo angle. */
    function AnguloCorrenteDH(): (a: real)
      reads this`anguloCorrente, this`difAnguloCorrenteDH
      ensures a - anguloCorrente == difAnguloCorrenteDH
    {
      anguloCorrente + difAnguloCorrenteDH
    }

    /** The width of the pulse range: the distance from the minimum to the maximum pulse. */
    function FaixaDeOperacao(): (f: int)
      reads this`tempoPulsoMin, this`tempoPulsoMax
      ensures tempoPulsoMin + f == tempoPulsoMax
    {
      tempoPulsoMax - tempoPulsoMin
    }
  }
}
