// Motions with acceleration on one channel of the board (PlacaMiniMaestro24.cs,
// timer_Elapsed), followed tick by tick with the board's 80 ms counter.
//
// As written, a channel whose speed falls to zero exactly on the midpoint of
// its motion does not land there on its target: the landing test for a
// channel without speed asks for a position strictly past the midpoint. The
// speed then turns negative and the channel runs backwards, past its start,
// before it turns round and reaches the target much later. The corrected
// tick also lands a channel standing exactly on the midpoint; with it, a
// motion towards the target never moves away from it and arrives within a
// bounded number of ticks.

module Aceleracao {
  import opened Perfil

  /**
   * The movement phase of a tick, corrected: a channel with no speed left
   * that stands exactly on its midpoint lands on its target too, as one past
   * the midpoint does; everything else is as written.
   */
  function MoverCorrigido(s: Estado, s1: Estado): ResultadoPasso
  {
    var sv := s1.sinalVel;
    if Abs(s1.speedCurr) == 0 && !s.inverte && sv != 0 && 2 * s.position == s.positionMedia2 then
      ResultadoPasso(s1.(position := s.target, speedCurr := 0, speedCurrNoLimit := 0, sinalVel := 0, sinalAcel := 0),
                     false, true)
    else
      Mover(s, s1)
  }

  /** One tick of one channel, corrected. */
  function PassoCorrigido(s: Estado, contou80ms: bool): ResultadoPasso
  {
    if EmMovimento(s) then MoverCorrigido(s, FaseAceleracao(s, contou80ms)) else Passo(s, contou80ms)
  }

  /** One tick of one channel, corrected or as written. */
  function Tique(corrigido: bool, s: Estado, contou80ms: bool): ResultadoPasso
  {
    if corrigido then PassoCorrigido(s, contou80ms) else Passo(s, contou80ms)
  }

  /**
   * n ticks of one channel, corrected or as written, c being the board's
   * 80 ms counter before the first.
   */
  function Percorrer(corrigido: bool, s: Estado, c: int, n: nat): Estado
    decreases n
  {
    if n == 0 then s else Percorrer(corrigido, Tique(corrigido, s, Contou(c)).estado, Contar(c), n - 1)
  }

  /** The 80 ms counter after n ticks starting from counter value c. */
  function ContarVezes(c: int, n: nat): int
    decreases n
  {
    if n == 0 then c else ContarVezes(Contar(c), n - 1)
  }

  /** Running a ticks and then b more is running a + b ticks. */
  lemma {:induction false} PercorrerCompoe(corrigido: bool, s: Estado, c: int, a: nat, b: nat)
    ensures Percorrer(corrigido, s, c, a + b) == Percorrer(corrigido, Percorrer(corrigido, s, c, a), ContarVezes(c, a), b)
    decreases a
  {
    if a > 0 {
      PercorrerCompoe(corrigido, Tique(corrigido, s, Contou(c)).estado, Contar(c), a - 1, b);
    }
  }

  /** A channel at 6000 with speed 40 and acceleration 10, inside [2000, 9000], never moved before. */
  const Exemplo := EstadoInicial.(position := 6000, target := 6000, min := 2000, max := 9000, speed := 40, acceleration := 10)

  /**
   * Sent from 6000 to 6160 (16 times its acceleration), the channel reaches
   * the midpoint 6080 after 16 ticks with its speed back at zero. As written
   * it stays there until the next 80 ms tick, then moves away from its
   * target and passes below its start; corrected, it lands on the target on
   * the 16th tick.
   */
  lemma MeioDoCaminhoContraExemplo()
    ensures var s := SetarTargetSpec(Exemplo, 6160).estado;
      s.position == 6000 && s.target == 6160
      && Percorrer(false, s, 0, 16).position == 6080 && Percorrer(false, s, 0, 23).position == 6080
      && Percorrer(false, s, 0, 24).position == 6070 && Percorrer(false, s, 0, 32).position == 5980
      && Percorrer(true, s, 0, 16).position == 6160
  {
    var s0 := ExemploParte();
    var s16 := ExemploAteOMeio(s0);
    var s24 := ExemploRecua(s16);
    var s32 := Estado(5980, 6160, 2000, 9000, 40, 10, 1, 1, -20, -20, -10, 12160, false);
    ExemploAbaixoDoInicio();
    ContarVezesCompoe(0, 8, 8);
    PercorrerCompoe(false, s0, 0, 16, 7);
    PercorrerCompoe(false, s0, 0, 16, 8);
    PercorrerCompoe(false, s0, 0, 16, 16);
    PercorrerCompoe(false, s16, 0, 8, 8);
  }

  /**
   * The rest of the example's detour, as written: the channel runs down to
   * 5280 (tick 55), turns back, lands on 6160 in tick 77 and stays there,
   * 61 ticks later than the corrected tick and with its speed left at 40.
   */
  lemma MeioDoCaminhoDesvio(k: nat)
    ensures var s := SetarTargetSpec(Exemplo, 6160).estado;
      Percorrer(false, s, 0, 55).position == 5280 && Percorrer(false, s, 0, 56).position == 5320 && Percorrer(false, s, 0, 76).position == 6120
      && Percorrer(false, s, 0, 77).speedCurr == 40 && Percorrer(false, s, 0, 77 + k).position == 6160
  {
    var s0, s56 := ExemploAteAVolta();
    var s64 := Estado(5640, 6160, 2000, 9000, 40, 10, 1, 1, 40, -60, -10, 12160, false);
    var s72 := Estado(5960, 6160, 2000, 9000, 40, 10, 1, 1, 40, -70, -10, 12160, false);
    ExemploVolta();
    ExemploSobe();
    var s77 := ExemploChega(s72);
    ContarPeriodos(7);
    ContarPeriodos(8);
    ContarPeriodos(9);
    Encadear(s0, 56, s56, 8, s64);
    Encadear(s0, 64, s64, 8, s72);
    Encadear(s0, 72, s72, 4, Percorrer(false, s72, 0, 4));
    Encadear(s0, 72, s72, 5, s77);
    PercorrerCompoe(false, s0, 0, 77, k);
    NoAlvoPermanece(false, s77, ContarVezes(0, 77), k);
  }

  /** The example's first 56 ticks, as written: down to 5280 after 55, turned back to 5320 after 56. */
  lemma ExemploAteAVolta() returns (s0: Estado, s56: Estado)
    ensures s0 == SetarTargetSpec(Exemplo, 6160).estado
    ensures s56 == Estado(5320, 6160, 2000, 9000, 40, 10, 1, 1, 40, -50, -10, 12160, false)
    ensures Percorrer(false, s0, 0, 55).position == 5280 && Percorrer(false, s0, 0, 56) == s56
  {
    s0 := ExemploParte();
    var s16 := ExemploAteOMeio(s0);
    var s24 := ExemploRecua(s16);
    var s32 := Estado(5980, 6160, 2000, 9000, 40, 10, 1, 1, -20, -20, -10, 12160, false);
    var s40 := Estado(5810, 6160, 2000, 9000, 40, 10, 1, 1, -30, -30, -10, 12160, false);
    var s48 := Estado(5560, 6160, 2000, 9000, 40, 10, 1, 1, -40, -40, -10, 12160, false);
    s56 := Estado(5320, 6160, 2000, 9000, 40, 10, 1, 1, 40, -50, -10, 12160, false);
    ExemploAbaixoDoInicio();
    ExemploAfasta();
    ExemploDesce();
    ExemploVira();
    ContarPeriodos(2);
    ContarPeriodos(3);
    ContarPeriodos(4);
    ContarPeriodos(5);
    ContarPeriodos(6);
    Encadear(s0, 16, s16, 8, s24);
    Encadear(s0, 24, s24, 8, s32);
    Encadear(s0, 32, s32, 8, s40);
    Encadear(s0, 40, s40, 8, s48);
    Encadear(s0, 48, s48, 7, Percorrer(false, s48, 0, 7));
    Encadear(s0, 48, s48, 8, s56);
  }

  /** The example once sent to 6160: heading up, accelerating, midpoint 6080. */
  lemma ExemploParte() returns (s0: Estado)
    ensures s0 == SetarTargetSpec(Exemplo, 6160).estado
    ensures s0 == Estado(6000, 6160, 2000, 9000, 40, 10, 1, 1, 0, 0, 10, 12160, false)
  {
    s0 := SetarTargetSpec(Exemplo, 6160).estado;
  }

  /**
   * The first 16 ticks of the example: as written the channel stands on the
   * midpoint with no speed left, corrected it is on its target.
   */
  lemma ExemploAteOMeio(s0: Estado) returns (s16: Estado)
    requires s0 == Estado(6000, 6160, 2000, 9000, 40, 10, 1, 1, 0, 0, 10, 12160, false)
    ensures s16 == Estado(6080, 6160, 2000, 9000, 40, 10, 1, 1, 0, 0, -10, 12160, false)
    ensures Percorrer(false, s0, 0, 16) == s16 && ContarVezes(0, 8) == 0
    ensures Percorrer(true, s0, 0, 16).position == 6160
  {
    s16 := Estado(6080, 6160, 2000, 9000, 40, 10, 1, 1, 0, 0, -10, 12160, false);
    assert Percorrer(false, Estado(6000, 6160, 2000, 9000, 40, 10, 1, 1, 0, 0, 10, 12160, false), 0, 8)
      == Estado(6010, 6160, 2000, 9000, 40, 10, 1, 1, 10, 10, 10, 12160, false);
    assert Percorrer(false, Estado(6010, 6160, 2000, 9000, 40, 10, 1, 1, 10, 10, 10, 12160, false), 0, 8)
      == Estado(6080, 6160, 2000, 9000, 40, 10, 1, 1, 0, 0, -10, 12160, false);
    assert ContarVezes(0, 8) == 0;
    PercorrerCompoe(false, s0, 0, 8, 8);
    assert Percorrer(true, Estado(6000, 6160, 2000, 9000, 40, 10, 1, 1, 0, 0, 10, 12160, false), 0, 8)
      == Estado(6010, 6160, 2000, 9000, 40, 10, 1, 1, 10, 10, 10, 12160, false);
    assert Percorrer(true, Estado(6010, 6160, 2000, 9000, 40, 10, 1, 1, 10, 10, 10, 12160, false), 0, 8).position == 6160;
    PercorrerCompoe(true, s0, 0, 8, 8);
  }

  /** Ticks 16 to 24 of the example, as written: 7 ticks standing on the midpoint, then one backwards. */
  lemma ExemploRecua(s16: Estado) returns (s24: Estado)
    requires s16 == Estado(6080, 6160, 2000, 9000, 40, 10, 1, 1, 0, 0, -10, 12160, false)
    ensures s24 == Estado(6070, 6160, 2000, 9000, 40, 10, 1, 1, -10, -10, -10, 12160, false)
    ensures Percorrer(false, s16, 0, 7) == s16 && Percorrer(false, s16, 0, 8) == s24
  {
    s24 := Estado(6070, 6160, 2000, 9000, 40, 10, 1, 1, -10, -10, -10, 12160, false);
    assert Percorrer(false, Estado(6080, 6160, 2000, 9000, 40, 10, 1, 1, 0, 0, -10, 12160, false), 0, 7)
      == Estado(6080, 6160, 2000, 9000, 40, 10, 1, 1, 0, 0, -10, 12160, false);
    assert ContarVezes(0, 7) == 7;
    assert Percorrer(false, Estado(6080, 6160, 2000, 9000, 40, 10, 1, 1, 0, 0, -10, 12160, false), 7, 1)
      == Estado(6070, 6160, 2000, 9000, 40, 10, 1, 1, -10, -10, -10, 12160, false);
    PercorrerCompoe(false, s16, 0, 7, 1);
  }

  /** Ticks 24 to 32 of the example, as written: the channel runs back below its start of 6000. */
  lemma ExemploAbaixoDoInicio()
    ensures Percorrer(false, Estado(6070, 6160, 2000, 9000, 40, 10, 1, 1, -10, -10, -10, 12160, false), 0, 8)
      == Estado(5980, 6160, 2000, 9000, 40, 10, 1, 1, -20, -20, -10, 12160, false)
  {
  }

  /** Ticks 32 to 40, as written: the channel speeds up away from its target. */
  lemma ExemploAfasta()
    ensures Percorrer(false, Estado(5980, 6160, 2000, 9000, 40, 10, 1, 1, -20, -20, -10, 12160, false), 0, 8)
      == Estado(5810, 6160, 2000, 9000, 40, 10, 1, 1, -30, -30, -10, 12160, false)
  {
  }

  /** Ticks 40 to 48, as written: the unlimited speed reaches -40, the maximum. */
  lemma ExemploDesce()
    ensures Percorrer(false, Estado(5810, 6160, 2000, 9000, 40, 10, 1, 1, -30, -30, -10, 12160, false), 0, 8)
      == Estado(5560, 6160, 2000, 9000, 40, 10, 1, 1, -40, -40, -10, 12160, false)
  {
  }

  /**
   * Ticks 48 to 56, as written: the channel goes on down to 5280; at the
   * 80 ms tick the unlimited speed passes the maximum of 40, and the speed
   * is capped with the sign of the direction, which is still up, so the
   * channel turns back to 5320.
   */
  lemma ExemploVira()
    ensures Percorrer(false, Estado(5560, 6160, 2000, 9000, 40, 10, 1, 1, -40, -40, -10, 12160, false), 0, 7).position == 5280
    ensures Percorrer(false, Estado(5560, 6160, 2000, 9000, 40, 10, 1, 1, -40, -40, -10, 12160, false), 0, 8)
      == Estado(5320, 6160, 2000, 9000, 40, 10, 1, 1, 40, -50, -10, 12160, false)
  {
  }

  /** Ticks 56 to 64, as written: heading up again at 40 per tick. */
  lemma ExemploVolta()
    ensures Percorrer(false, Estado(5320, 6160, 2000, 9000, 40, 10, 1, 1, 40, -50, -10, 12160, false), 0, 8)
      == Estado(5640, 6160, 2000, 9000, 40, 10, 1, 1, 40, -60, -10, 12160, false)
  {
  }

  /** Ticks 64 to 72, as written: back below its start, still heading up. */
  lemma ExemploSobe()
    ensures Percorrer(false, Estado(5640, 6160, 2000, 9000, 40, 10, 1, 1, 40, -60, -10, 12160, false), 0, 8)
      == Estado(5960, 6160, 2000, 9000, 40, 10, 1, 1, 40, -70, -10, 12160, false)
  {
  }

  /** Ticks 72 to 77, as written: the channel lands on 6160 in the 77th tick, not before. */
  lemma ExemploChega(s72: Estado) returns (s77: Estado)
    requires s72 == Estado(5960, 6160, 2000, 9000, 40, 10, 1, 1, 40, -70, -10, 12160, false)
    ensures s77 == Estado(6160, 6160, 2000, 9000, 40, 10, 1, 1, 40, -70, -10, 12160, false)
    ensures Percorrer(false, s72, 0, 4).position == 6120 && Percorrer(false, s72, 0, 5) == s77
  {
    s77 := Estado(6160, 6160, 2000, 9000, 40, 10, 1, 1, 40, -70, -10, 12160, false);
    assert Percorrer(false, Estado(5960, 6160, 2000, 9000, 40, 10, 1, 1, 40, -70, -10, 12160, false), 0, 4)
      == Estado(6120, 6160, 2000, 9000, 40, 10, 1, 1, 40, -70, -10, 12160, false);
    assert Percorrer(false, Estado(6120, 6160, 2000, 9000, 40, 10, 1, 1, 40, -70, -10, 12160, false), 4, 1)
      == Estado(6160, 6160, 2000, 9000, 40, 10, 1, 1, 40, -70, -10, 12160, false);
    assert ContarVezes(0, 4) == 4;
    PercorrerCompoe(false, s72, 0, 4, 1);
  }

  /** Composing two runs that start on an 80 ms boundary, the first a whole number of 80 ms periods. */
  lemma Encadear(s: Estado, a: nat, x: Estado, b: nat, y: Estado)
    requires ContarVezes(0, a) == 0 && Percorrer(false, s, 0, a) == x && Percorrer(false, x, 0, b) == y
    ensures Percorrer(false, s, 0, a + b) == y
  {
    PercorrerCompoe(false, s, 0, a, b);
  }

  /** Whole 80 ms periods bring the counter back to 0. */
  lemma {:induction false} ContarPeriodos(k: nat)
    ensures ContarVezes(0, 8 * k) == 0
  {
    if k > 0 {
      ContarPeriodos(k - 1);
      ContarVezesCompoe(0, 8 * (k - 1), 8);
      assert ContarVezes(0, 8) == 0;
    }
  }

  /** Counting a ticks and then b more is counting a + b ticks. */
  lemma {:induction false} ContarVezesCompoe(c: int, a: nat, b: nat)
    ensures ContarVezes(c, a + b) == ContarVezes(ContarVezes(c, a), b)
    decreases a
  {
    if a > 0 {
      ContarVezesCompoe(Contar(c), a - 1, b);
    }
  }

  // ---------------------------------------------------------------------
  // Corrected: a motion with acceleration goes straight to its target

  /** The speed driven for the unlimited speed n under the maximum speed v (0 for no limit), heading up. */
  function Limitada(n: int, v: int): int
  {
    if Abs(n) <= v || v == 0 then n else v
  }

  /** n is a natural multiple of a > 0: the unlimited speed only ever moves by the acceleration. */
  predicate Multiplo(n: int, a: int)
    decreases n
  {
    a > 0 && n >= 0 && (n == 0 || (n >= a && Multiplo(n - a, a)))
  }

  /**
   * A channel heading up to its target with acceleration and no reversal
   * pending, c being the 80 ms counter: it stands inside [min, max] below
   * the target, its unlimited speed is a multiple of the acceleration and
   * its speed is that speed limited; with no unlimited speed it is still
   * before the midpoint and accelerating, and once decelerating it is past
   * the midpoint with some speed left.
   */
  predicate Subida(s: Estado, c: int)
  {
    0 <= c < 8 && s.speed >= 0
    && !s.inverte && s.sinalVel == 1 && s.sinalAcel == 1
    && s.min <= s.position < s.target <= s.max
    && Multiplo(s.speedCurrNoLimit, s.acceleration)
    && s.speedCurr == Limitada(s.speedCurrNoLimit, s.speed)
    && (s.accelerationCurr == s.acceleration || s.accelerationCurr == -s.acceleration)
    && (s.speedCurrNoLimit == 0 ==> 2 * s.position < s.positionMedia2 && s.accelerationCurr == s.acceleration)
    && (s.accelerationCurr == -s.acceleration ==> 2 * s.position >= s.positionMedia2 && s.speedCurrNoLimit > 0)
  }

  /**
   * One corrected tick of a channel heading up: it neither moves back nor
   * passes its target; short of the target it is still heading up with the
   * same midpoint, and if it did not move the tick was not an 80 ms tick.
   */
  lemma SubidaPasso(s: Estado, c: int)
    requires Subida(s, c)
    ensures var r := PassoCorrigido(s, Contou(c)).estado;
      r.target == s.target && s.position <= r.position <= s.target
      && (r.position < s.target ==> Subida(r, Contar(c)) && r.positionMedia2 == s.positionMedia2)
      && (r.position == s.position ==> !Contou(c))
  {
    FaseSubida(s, c);
  }

  /**
   * The acceleration phase of a tick of a channel heading up changes only
   * its rate: the unlimited speed stays a multiple of the acceleration, the
   * speed is that speed limited, deceleration starts only past the midpoint,
   * and without speed and still accelerating it is before the midpoint in a
   * tick that is not an 80 ms tick.
   */
  lemma FaseSubida(s: Estado, c: int)
    requires Subida(s, c)
    ensures var s1 := FaseAceleracao(s, Contou(c));
      s1 == s.(accelerationCurr := s1.accelerationCurr, speedCurrNoLimit := s1.speedCurrNoLimit, speedCurr := s1.speedCurr)
      && Multiplo(s1.speedCurrNoLimit, s.acceleration) && s1.speedCurr == Limitada(s1.speedCurrNoLimit, s.speed)
      && (s1.accelerationCurr == s.acceleration || s1.accelerationCurr == -s.acceleration)
      && (s1.accelerationCurr == -s.acceleration ==> 2 * s.position >= s.positionMedia2)
      && (s1.speedCurrNoLimit == 0 && s1.accelerationCurr == s.acceleration ==> 2 * s.position < s.positionMedia2 && !Contou(c))
  {
    var f := Contou(c);
    var s1 := FaseAceleracao(s, f);
    var n := s.speedCurrNoLimit;
    if f {
      if s1.accelerationCurr == s.acceleration {
        assert Multiplo(n + s.acceleration, s.acceleration);
      } else if n > 0 {
        assert Multiplo(n - s.acceleration, s.acceleration);
      }
    }
  }

  /** A channel on its target stays as it is, corrected or not, whatever the counter. */
  lemma {:induction false} NoAlvoPermanece(corrigido: bool, s: Estado, c: int, n: nat)
    requires s.position == s.target
    ensures Percorrer(corrigido, s, c, n) == s
    decreases n
  {
    if n > 0 {
      PassoParado(s, Contou(c));
      NoAlvoPermanece(corrigido, s, Contar(c), n - 1);
    }
  }

  /**
   * Corrected, a channel heading up is on its target after at most
   * 16 * distance + 8 - c ticks, and stays there.
   */
  lemma {:induction false} SubidaChega(s: Estado, c: int, n: nat)
    requires Subida(s, c) && n >= 16 * (s.target - s.position) + 8 - c
    ensures Percorrer(true, s, c, n).position == s.target
    decreases n
  {
    var r := PassoCorrigido(s, Contou(c)).estado;
    SubidaPasso(s, c);
    if r.position == s.target {
      NoAlvoPermanece(true, r, Contar(c), n - 1);
    } else {
      SubidaChega(r, Contar(c), n - 1);
    }
  }

  /**
   * Corrected, a channel heading up never moves back and never passes its
   * target: after any number of ticks it lies between where it stood and
   * the target, and the next tick does not take it back.
   */
  lemma {:induction false} SubidaMonotona(s: Estado, c: int, n: nat)
    requires Subida(s, c)
    ensures var x := Percorrer(true, s, c, n); var y := Percorrer(true, s, c, n + 1);
      s.position <= x.position <= y.position <= s.target && x.target == s.target
    decreases n
  {
    var r := PassoCorrigido(s, Contou(c)).estado;
    SubidaPasso(s, c);
    if r.position == s.target {
      NoAlvoPermanece(true, r, Contar(c), n);
      if n > 0 {
        NoAlvoPermanece(true, r, Contar(c), n - 1);
      }
    } else if n > 0 {
      SubidaMonotona(r, Contar(c), n - 1);
    }
  }

  /**
   * The channel seen in a mirror: every position, limit, speed, acceleration
   * and sign negated, so that a motion down becomes a motion up.
   */
  function Espelho(s: Estado): Estado
  {
    s.(position := -s.position, target := -s.target, min := -s.max, max := -s.min,
       sinalVel := -s.sinalVel, sinalAcel := -s.sinalAcel,
       speedCurr := -s.speedCurr, speedCurrNoLimit := -s.speedCurrNoLimit, accelerationCurr := -s.accelerationCurr,
       positionMedia2 := -s.positionMedia2)
  }

  /** The acceleration phase of the mirrored channel is the mirrored acceleration phase. */
  lemma FaseEspelhada(s: Estado, contou80ms: bool)
    ensures FaseAceleracao(Espelho(s), contou80ms) == Espelho(FaseAceleracao(s, contou80ms))
  {
  }

  /** The movement phase of the mirrored channel is the mirrored movement phase. */
  lemma MoverEspelhado(s: Estado, s1: Estado)
    requires s.min <= s.max
    ensures MoverCorrigido(Espelho(s), Espelho(s1)).estado == Espelho(MoverCorrigido(s, s1).estado)
  {
    var e, e1 := Espelho(s), Espelho(s1);
    if Abs(s1.speedCurr) > 0 && Abs(s.target - s.position) >= Abs(s1.speedCurr) {
      var p := s.position + s1.speedCurr;
      assert e.position + e1.speedCurr == -p;
      if p < s.min {
        assert Mover(e, e1).estado.position == -s.min;
      } else if p > s.max {
        assert Mover(e, e1).estado.position == -s.max;
      }
    }
  }

  /** A corrected tick treats a motion down exactly as the mirrored motion up. */
  lemma PassoEspelhado(s: Estado, contou80ms: bool)
    requires s.min <= s.max
    ensures PassoCorrigido(Espelho(s), contou80ms).estado == Espelho(PassoCorrigido(s, contou80ms).estado)
  {
    assert EmMovimento(Espelho(s)) == EmMovimento(s);
    if EmMovimento(s) {
      FaseEspelhada(s, contou80ms);
      MoverEspelhado(s, FaseAceleracao(s, contou80ms));
    }
  }

  /** Ticks of the mirrored channel are the mirrored ticks of the channel. */
  lemma {:induction false} PercorrerEspelhado(s: Estado, c: int, n: nat)
    requires s.min <= s.max
    ensures Percorrer(true, Espelho(s), c, n) == Espelho(Percorrer(true, s, c, n))
    decreases n
  {
    if n > 0 {
      PassoEspelhado(s, Contou(c));
      PassoPreserva(s, Contou(c));
      PercorrerEspelhado(PassoCorrigido(s, Contou(c)).estado, Contar(c), n - 1);
    }
  }

  /**
   * A channel at rest inside [min, max], sent with acceleration to another
   * target inside [min, max], on the corrected board: after any number of
   * ticks it lies between its start and the target, no tick takes it
   * further from the target, and after 16 * distance + 8 ticks (the
   * distance in 0.25 us) it is on the target.
   */
  lemma ConvergenciaComAceleracao(s: Estado, alvo: int, n: nat)
    requires s.acceleration > 0 && s.speed >= 0 && s.speedCurr == 0 && s.speedCurrNoLimit == 0
    requires s.min <= s.position <= s.max && s.position != 0
    requires s.min <= alvo <= s.max && alvo != 0 && alvo != s.position
    ensures var s0 := SetarTargetSpec(s, alvo).estado;
      var x := Percorrer(true, s0, 0, n); var y := Percorrer(true, s0, 0, n + 1);
      s0.position == s.position && s0.target == alvo
      && (if s.position < alvo then s.position <= x.position <= alvo else alvo <= x.position <= s.position)
      && Abs(alvo - y.position) <= Abs(alvo - x.position)
      && (n >= 16 * Abs(alvo - s.position) + 8 ==> x.position == alvo)
  {
    var s0 := SetarTargetSpec(s, alvo).estado;
    assert Multiplo(0, s.acceleration);
    if s.position < alvo {
      assert Subida(s0, 0);
      SubidaMonotona(s0, 0, n);
      if n >= 16 * Abs(alvo - s.position) + 8 {
        SubidaChega(s0, 0, n);
      }
    } else {
      var e := Espelho(s0);
      assert Subida(e, 0);
      SubidaMonotona(e, 0, n);
      PercorrerEspelhado(s0, 0, n);
      PercorrerEspelhado(s0, 0, n + 1);
      if n >= 16 * Abs(alvo - s.position) + 8 {
        SubidaChega(e, 0, n);
      }
    }
  }
}
