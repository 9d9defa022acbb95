# BracoRobo: the servo controller of a simulated robot arm, in Dafny

BracoRobo simulates a robot arm with five joints and a gripper. A simulated
Pololu Mini Maestro 24 servo board drives the six servos. A host commands
the robot over a serial port, with a framed text protocol such as `[JSTA1500B1200]`
or `[CTZJ1]`. This project models the robot's control core and proves what
it does:

- `servomotor.dfy` (module `Servomotor`): a servomotor's pulse-time fields,
  the linear map from pulse time to angle, and the `TempoPulsoCorrente`
  setter that moves the angle.
- `perfil.dfy` (module `Perfil`): the board's per-channel motion engine as
  pure functions on one channel's state. `SetarTargetSpec` is what
  `SetarTarget` does to a channel. `Passo` is one 10 ms tick of the
  board's timer. The module also holds the lemmas about both.
- `canal.dfy` (module `Canal`): class `CanalMiniMaestro`. Its `Position` and
  `Target` setters pass the pulse on to the channel's servo.
- `placa.dfy` (module `Placa`): class `PlacaMiniMaestro24`. It holds
  `SetarTarget`, `SetTarget`, `SetMultipleTargets`, the speed and
  acceleration setters, the getters and the timer tick `TimerElapsed`.
  Each is proved against `Perfil`.
- `aceleracao.dfy` (module `Aceleracao`): motions with acceleration
  followed tick by tick with the 80 ms counter, both as the board runs
  them and with the midpoint landing test corrected (see Findings).
- `protocolo.dfy` (module `Protocolo`): the protocol's pure parts:
  - frame reception, a function of the reception state and one character;
  - the command table and dispatch;
  - the number formats;
  - VALSET;
  - the JST parser;
  - the LED frame.
- `acionamento.dfy` (module `Acionamento`): the record of the servo command
  in flight, the reply and feedback texts, the table of servo parameters,
  the rest-position state machine, and the start-up constants.
- `comandos.dfy` (module `Comandos`): the LED, CTZ and GTP decisions, each
  both as the program writes it and as evidently intended (see Findings).
- `robo.dfy` (module `Robo`): class `Robo`. It holds the start-up
  (`IniciarServos`), character reception, the decoder and every command
  handler, the motion feedback, the emergency stop, the rest-position
  sequence and `Update`.

The serial port is modelled by two fields:

- `bfRecebe`: the characters received and not yet consumed;
- `saida`: every line written, in order. A `WriteLine(s)` is one element,
  `s` followed by a newline.

Two facts the program reads from its environment become parameters of
`Update`: whether the port is open, and whether the robot's one-shot timer
(2 s during the rest sequence, 5 s after RST) is running. The board's 10 ms
timer is the method `TimerElapsed`, which the environment calls.

Pulse times in microseconds (us) are `real`. Board positions, speeds and
accelerations count quarter-microseconds and are `int`.

The robot and its board run the program's code as written, including the five quirks
listed under Findings. Beside each quirk, the evidently intended behaviour
is defined and proved.

## Model

| member | source | states |
|---|---|---|
| Servomotor.Calibrar | BracoRobo/BracoRobo/Classes/Robo.cs:1316-1325 | the calibration maps the maximum pulse to the maximum angle and the minimum pulse to the minimum angle, or the reverse for a servo with inverse proportion |
| Servomotor.CalibracaoNaFaixa | BracoRobo/BracoRobo/Classes/Robo.cs:1316-1325 | every pulse between the minimum and the maximum maps to an angle between the servo's minimum and maximum angle |
| Servomotor.EscrevePulso | BracoRobo/BracoRobo/Classes/Servomotor.cs:196-207 | writing a pulse time stores it; the angle follows the calibration only when conversion is active and the pulse is not 0, otherwise the angle stays |
| Servomotor.Servo.constructor | BracoRobo/BracoRobo/Classes/Servomotor.cs:276-279 | a new servo carries the given names and angle limits, conversion off, and every pulse time, speed and acceleration 0 |
| Servomotor.Servo.SetTempoPulsoCorrente | BracoRobo/BracoRobo/Classes/Servomotor.cs:196-207 | the pulse and angle become those of EscrevePulso under the servo's own calibration |
| Servomotor.Servo.AnguloCorrenteDH | BracoRobo/BracoRobo/Classes/Servomotor.cs:158-160 | the Denavit-Hartenberg angle differs from the current angle by the servo's fixed offset |
| Servomotor.Servo.FaixaDeOperacao | BracoRobo/BracoRobo/Classes/Servomotor.cs:286-289 | the operating range added to the minimum pulse gives the maximum pulse |
| Canal.PulsoAposEscritas | BracoRobo/BracoRobo/Classes/CanalMiniMaestro.cs:59-71 | after a series of position writes the servo's pulse is the last position written divided by 4; with no write the servo is unchanged |
| Canal.CanalMiniMaestro.constructor | BracoRobo/BracoRobo/Classes/CanalMiniMaestro.cs:159-162 | a new channel is bound to its servo and its whole motion state is zero |
| Canal.CanalMiniMaestro.EscritoMais | BracoRobo/BracoRobo/Classes/CanalMiniMaestro.cs:59-71 | one more position write after a series is the same as the longer series |
| Canal.CanalMiniMaestro.SetPosition | BracoRobo/BracoRobo/Classes/CanalMiniMaestro.cs:59-71 | only the position changes, and the servo receives the position divided by 4 as its current pulse |
| Canal.CanalMiniMaestro.SetTarget | BracoRobo/BracoRobo/Classes/CanalMiniMaestro.cs:94-105 | only the target changes, and the servo's target pulse becomes the target divided by 4 |
| Perfil.SetarTargetAlvo | BracoRobo/BracoRobo/Classes/PlacaMiniMaestro24.cs:285-313 | a target of 0 switches the channel off without motion; any other target is clamped into [min, max] and kept when already inside |
| Perfil.SetarTargetMovimento | BracoRobo/BracoRobo/Classes/PlacaMiniMaestro24.cs:316-418 | the channel moves if and only if the target differs from the starting position and speed or acceleration is positive; when it does not move it stands on the target; a target equal to the start clears the whole rate state |
| Perfil.SetarTargetSemAceleracao | BracoRobo/BracoRobo/Classes/PlacaMiniMaestro24.cs:316-406 | a move without acceleration runs at plus or minus the configured speed towards the target, with no acceleration and no reversal pending |
| Perfil.SetarTargetReversao | BracoRobo/BracoRobo/Classes/PlacaMiniMaestro24.cs:316-406 | with acceleration, the acceleration points towards the target; a reversal is armed if and only if the current unlimited speed points away from the target, and then the old direction is kept and the unlimited speed restarts from the current speed; otherwise the direction is that of the target |
| Perfil.SetarTargetEscritas | BracoRobo/BracoRobo/Classes/PlacaMiniMaestro24.cs:281-419 | every change of position is written to the channel, the last write is the final position, and the channel's configuration is kept |
| Perfil.PassoParado | BracoRobo/BracoRobo/Classes/PlacaMiniMaestro24.cs:116-257 | a tick leaves a channel untouched, writing nothing, exactly when its direction is 0 or it stands on its target; a tick that writes nothing keeps the position |
| Perfil.PassoLimitado | BracoRobo/BracoRobo/Classes/PlacaMiniMaestro24.cs:168-202 | a moving channel advances by its current speed, clamped into [min, max]; a written position is the target or lies in [min, max] |
| Perfil.PassoChegada | BracoRobo/BracoRobo/Classes/PlacaMiniMaestro24.cs:203-240 | a moving channel closer to its target than one step lands on it; a channel that has passed its target with no reversal pending lands on it with its rate state cleared |
| Perfil.PassoVelocidade | BracoRobo/BracoRobo/Classes/PlacaMiniMaestro24.cs:129-166 | the speed changes only on the 80 ms tick (or drops to 0 on arrival), and acceleration never takes it beyond the configured speed |
| Perfil.PassoPreserva | BracoRobo/BracoRobo/Classes/PlacaMiniMaestro24.cs:116-245 | a tick never changes the target or the configuration, and keeps the direction signs in {-1, 0, 1} |
| Perfil.ParadoPermanece | BracoRobo/BracoRobo/Classes/PlacaMiniMaestro24.cs:116-245 | a channel at rest stays at rest however many ticks pass |
| Perfil.TicksArredonda | BracoRobo/BracoRobo/Classes/PlacaMiniMaestro24.cs:168-211 | the number of ticks to cover a distance at a given speed is the distance over the speed, rounded up |
| Perfil.SemAceleracaoIgnora80ms | BracoRobo/BracoRobo/Classes/PlacaMiniMaestro24.cs:129-166 | without acceleration the 80 ms tick makes no difference |
| Perfil.PassoVelocidadeConstante | BracoRobo/BracoRobo/Classes/PlacaMiniMaestro24.cs:168-211 | at constant speed a tick advances by the speed, or arrives when the target is closer than that |
| Perfil.ConvergenciaVelocidadeConstante | BracoRobo/BracoRobo/Classes/PlacaMiniMaestro24.cs:97-258 | at constant speed the channel is on its target after distance/speed ticks, rounded up |
| Perfil.ChegadaVelocidadeConstante | BracoRobo/BracoRobo/Classes/PlacaMiniMaestro24.cs:203-211 | at constant speed a target within one step is reached in one tick |
| Perfil.AvancoVelocidadeConstante | BracoRobo/BracoRobo/Classes/PlacaMiniMaestro24.cs:168-202 | at constant speed a tick further from the target than one step cuts the distance by exactly the speed and keeps the motion constant |
| Perfil.ConvergenciaAposSetarTarget | BracoRobo/BracoRobo/Classes/PlacaMiniMaestro24.cs:281-419 | without acceleration and with a positive speed, a channel standing at a non-zero position inside [min, max], given a non-zero target inside [min, max], stands on that target and is at rest after distance/speed ticks, rounded up |
| Aceleracao.MeioDoCaminhoContraExemplo | BracoRobo/BracoRobo/Classes/PlacaMiniMaestro24.cs:212-223 | as written, a channel at 6000 sent to 6160 with speed 40 and acceleration 10 stands on the midpoint 6080 from tick 16 to tick 23, is at 6070 after 24 ticks and at 5980, below its start, after 32; corrected it is on 6160 after 16 ticks |
| Aceleracao.MeioDoCaminhoDesvio | BracoRobo/BracoRobo/Classes/PlacaMiniMaestro24.cs:131-223 | as written, the same channel goes on down to 5280 (tick 55), is turned back at the next 80 ms tick because the capped speed takes the sign of the direction, which is still up, lands on 6160 in tick 77 (6120 after 76) with its speed still 40, and stays there |
| Aceleracao.PercorrerCompoe | BracoRobo/BracoRobo/Classes/PlacaMiniMaestro24.cs:102-114 | running a ticks and then b more from the counter reached is running a + b ticks |
| Aceleracao.SubidaPasso | BracoRobo/BracoRobo/Classes/PlacaMiniMaestro24.cs:116-245 | a corrected tick of a channel heading up with acceleration neither moves it back nor past its target; short of the target it keeps heading up with the same midpoint, and it stands still only in a tick that is not an 80 ms tick |
| Aceleracao.FaseSubida | BracoRobo/BracoRobo/Classes/PlacaMiniMaestro24.cs:129-166 | the acceleration phase of a channel heading up changes only its rate: the unlimited speed stays a multiple of the acceleration, the speed is that speed capped at the maximum, deceleration begins only at or past the midpoint, and a channel without speed that is still accelerating is before the midpoint |
| Aceleracao.NoAlvoPermanece | BracoRobo/BracoRobo/Classes/PlacaMiniMaestro24.cs:227-244 | a channel on its target stays unchanged through any number of ticks, corrected or as written |
| Aceleracao.SubidaChega | BracoRobo/BracoRobo/Classes/PlacaMiniMaestro24.cs:97-258 | corrected, a channel heading up is on its target after 16 * distance + 8 - c ticks, c being the 80 ms counter |
| Aceleracao.SubidaMonotona | BracoRobo/BracoRobo/Classes/PlacaMiniMaestro24.cs:97-258 | corrected, a channel heading up stays between its start and its target, keeps its target, and no tick moves it back |
| Aceleracao.FaseEspelhada | BracoRobo/BracoRobo/Classes/PlacaMiniMaestro24.cs:129-166 | the acceleration phase treats a channel heading down as the mirror image of one heading up |
| Aceleracao.MoverEspelhado | BracoRobo/BracoRobo/Classes/PlacaMiniMaestro24.cs:168-223 | with min <= max, the corrected movement phase treats a channel heading down as the mirror image of one heading up, clamping included |
| Aceleracao.PassoEspelhado | BracoRobo/BracoRobo/Classes/PlacaMiniMaestro24.cs:116-245 | with min <= max, a corrected tick of the mirrored channel is the mirrored tick |
| Aceleracao.PercorrerEspelhado | BracoRobo/BracoRobo/Classes/PlacaMiniMaestro24.cs:97-258 | with min <= max, any number of corrected ticks of the mirrored channel are the mirrored ticks |
| Aceleracao.ConvergenciaComAceleracao | BracoRobo/BracoRobo/Classes/PlacaMiniMaestro24.cs:281-419 | corrected, a channel at rest at a non-zero position inside [min, max], with acceleration, sent to another non-zero target inside [min, max], keeps its start and the new target, stays between them, never moves away from the target, and stands on it after 16 * distance + 8 ticks; both directions |
| Placa.NovosCanais | BracoRobo/BracoRobo/Classes/PlacaMiniMaestro24.cs:77-90 | six fresh, distinct channels, each bound to its servo and all-zero |
| Placa.PlacaMiniMaestro24.constructor | BracoRobo/BracoRobo/Classes/PlacaMiniMaestro24.cs:77-90 | the board starts with six fresh all-zero channels, bound to the given servos, the 80 ms counter at 0 and not moving |
| Placa.PlacaMiniMaestro24.SetarTarget | BracoRobo/BracoRobo/Classes/PlacaMiniMaestro24.cs:281-419 | the channel becomes SetarTargetSpec of its old state and the target in quarter-us, its servo receives every write, moved is SetarTargetSpec's verdict, the 80 ms counter restarts, and no other channel changes |
| Placa.PlacaMiniMaestro24.PrepararAlvo | BracoRobo/BracoRobo/Classes/PlacaMiniMaestro24.cs:285-313 | the switch-off and clamping phase leaves the channel as Preparar says, with the servo's target and pulse following |
| Placa.PlacaMiniMaestro24.DirecionarCanal | BracoRobo/BracoRobo/Classes/PlacaMiniMaestro24.cs:316-418 | the direction phase leaves the channel as Direcionar says, with every write passed on to the servo |
| Placa.PlacaMiniMaestro24.MovimentoPositivo | BracoRobo/BracoRobo/Classes/PlacaMiniMaestro24.cs:317-361 | the upward branch leaves the channel as Direcionar says |
| Placa.PlacaMiniMaestro24.MovimentoNegativo | BracoRobo/BracoRobo/Classes/PlacaMiniMaestro24.cs:362-406 | the downward branch leaves the channel as Direcionar says |
| Placa.PlacaMiniMaestro24.SetTarget | BracoRobo/BracoRobo/Classes/PlacaMiniMaestro24.cs:266-273 | the target is applied to one channel, no other channel changes, and the board is marked moving if that channel moved |
| Placa.PlacaMiniMaestro24.SetMultipleTargets | BracoRobo/BracoRobo/Classes/PlacaMiniMaestro24.cs:428-443 | each channel in the range gets its own target, channels outside it are untouched, and the board is marked moving if any of them moved |
| Placa.PlacaMiniMaestro24.AlvejarCanais | BracoRobo/BracoRobo/Classes/PlacaMiniMaestro24.cs:433-436 | the loop over the range applies each target and reports whether any channel moved |
| Placa.PlacaMiniMaestro24.AlvejadosOutrosAlvos | BracoRobo/BracoRobo/Classes/PlacaMiniMaestro24.cs:428-443 | what a series of targets did to the channels does not depend on the servo targets recorded below the first channel |
| Placa.PlacaMiniMaestro24.AlvejarCanal | BracoRobo/BracoRobo/Classes/PlacaMiniMaestro24.cs:433-436 | one loop step applies one more channel's target and extends the moved flag by it |
| Placa.PlacaMiniMaestro24.SetSpeed | BracoRobo/BracoRobo/Classes/PlacaMiniMaestro24.cs:451-455 | the channel's speed is set and the call reports success |
| Placa.PlacaMiniMaestro24.SetAcceleration | BracoRobo/BracoRobo/Classes/PlacaMiniMaestro24.cs:462-466 | the channel's acceleration is set and the call reports success |
| Placa.PlacaMiniMaestro24.GetPosition | BracoRobo/BracoRobo/Classes/PlacaMiniMaestro24.cs:473-476 | the channel's position |
| Placa.PlacaMiniMaestro24.GetMovingState | BracoRobo/BracoRobo/Classes/PlacaMiniMaestro24.cs:483-486 | the moving state, which is only ever 0 or 1 |
| Placa.PlacaMiniMaestro24.GetErrors | BracoRobo/BracoRobo/Classes/PlacaMiniMaestro24.cs:492-496 | the simulated board never reports an error |
| Placa.PlacaMiniMaestro24.TimerElapsed | BracoRobo/BracoRobo/Classes/PlacaMiniMaestro24.cs:97-258 | the 80 ms counter wraps at 8, every channel takes one Passo with the 80 ms flag, its servo receives every write, and the board is at rest if and only if every channel was at rest |
| Placa.PlacaMiniMaestro24.AvancarCanais | BracoRobo/BracoRobo/Classes/PlacaMiniMaestro24.cs:116-245 | every channel takes its Passo, and "all stopped" holds if and only if every channel was at rest |
| Placa.PlacaMiniMaestro24.AvancarCanal | BracoRobo/BracoRobo/Classes/PlacaMiniMaestro24.cs:116-245 | one loop step advances one more channel and extends "all stopped" by it |
| Placa.PlacaMiniMaestro24.PassoDoCanal | BracoRobo/BracoRobo/Classes/PlacaMiniMaestro24.cs:118-244 | one channel becomes Passo of its old state, and it reports rest as Passo does |
| Placa.PlacaMiniMaestro24.AcelerarCanal | BracoRobo/BracoRobo/Classes/PlacaMiniMaestro24.cs:129-166 | the acceleration phase leaves the channel as FaseAceleracao says |
| Placa.PlacaMiniMaestro24.MoverCanal | BracoRobo/BracoRobo/Classes/PlacaMiniMaestro24.cs:168-223 | the move phase leaves the channel as Mover says, with its writes passed on to the servo |
| Placa.PlacaMiniMaestro24.AvancarPosicao | BracoRobo/BracoRobo/Classes/PlacaMiniMaestro24.cs:168-202 | a full step moves the channel as Mover says and writes the new position once |
| Placa.PlacaMiniMaestro24.ChegarAoAlvo | BracoRobo/BracoRobo/Classes/PlacaMiniMaestro24.cs:202-240 | a channel lands on its target with its rate state cleared, and the target is written to its servo |
| Protocolo.Maiuscula | BracoRobo/BracoRobo/Classes/Robo.cs:852-856 | the received character is never a lower-case letter |
| Protocolo.Receber | BracoRobo/BracoRobo/Classes/Robo.cs:873-915 | receiving a character keeps an open frame's buffer non-empty |
| Protocolo.ReceberAbre | BracoRobo/BracoRobo/Classes/Robo.cs:875-907 | '[' always opens a new frame holding just "[", whatever came before, and leaves the ready flag as it was |
| Protocolo.ReceberFecha | BracoRobo/BracoRobo/Classes/Robo.cs:897-903 | ']' in an open frame appends it, closes the frame and marks it ready |
| Protocolo.ReceberAcrescenta | BracoRobo/BracoRobo/Classes/Robo.cs:908-917 | an ordinary character is appended upper-cased; at 39 characters the frame is closed and marked ready |
| Protocolo.ReceberApaga | BracoRobo/BracoRobo/Classes/Robo.cs:886-896 | backspace removes the last character, and removing the '[' closes the frame |
| Protocolo.ReceberInterrogacao | BracoRobo/BracoRobo/Classes/Robo.cs:884 | '?' (the stand-in for any other byte) changes nothing in the frame |
| Protocolo.ReceberForaDoQuadro | BracoRobo/BracoRobo/Classes/Robo.cs:875-884 | outside a frame everything but '[' is ignored |
| Protocolo.ReceberPreserva | BracoRobo/BracoRobo/Classes/Robo.cs:845-917 | while no frame waits to be decoded, the reception invariant holds after every character: an open frame starts with "[" and is shorter than 39 characters, and a ready frame is a complete frame |
| Protocolo.ReceberTodos | BracoRobo/BracoRobo/Classes/Robo.cs:845-917 | receiving a string keeps an open frame's buffer non-empty |
| Protocolo.Normalizados | BracoRobo/BracoRobo/Classes/Robo.cs:852-856 | normalising keeps the length |
| Protocolo.CorpoRecebido | BracoRobo/BracoRobo/Classes/Robo.cs:904-915 | a run of ordinary characters inside a frame is appended upper-cased while the frame stays open |
| Protocolo.PassoDoCorpo | BracoRobo/BracoRobo/Classes/Robo.cs:904-915 | one ordinary character inside a short frame is appended and the frame stays open |
| Protocolo.QuadroRecebido | BracoRobo/BracoRobo/Classes/Robo.cs:845-917 | "[" + body + "]" received from outside a frame yields exactly that frame, upper-cased, ready for decoding |
| Protocolo.ReceberTodosConcat | BracoRobo/BracoRobo/Classes/Robo.cs:845-917 | receiving s then t is receiving s + t |
| Protocolo.PrimeiroComando | BracoRobo/BracoRobo/Classes/Robo.cs:962-984 | the search returns the first mnemonic in table order that the frame starts with, and none before it matches |
| Protocolo.Despacho | BracoRobo/BracoRobo/Classes/Robo.cs:1859-2791 | the decoder finds no command if and only if no mnemonic matches the frame; otherwise the command of a matching mnemonic |
| Protocolo.TabelaSemPrefixos | BracoRobo/BracoRobo/Classes/Robo.cs:1859-2785 | no mnemonic is a prefix of another |
| Protocolo.SemSombra | BracoRobo/BracoRobo/Classes/Robo.cs:962-984 | a frame made for one mnemonic never matches another |
| Protocolo.DespachoReconhece | BracoRobo/BracoRobo/Classes/Robo.cs:1859-2791 | "[" + mnemonic + anything non-empty is dispatched to that mnemonic's command |
| Protocolo.QuadroDespachado | BracoRobo/BracoRobo/Classes/Robo.cs:962-984 | a dispatched frame starts with "[" and its command's mnemonic |
| Protocolo.TabelaDeMnemonicos | BracoRobo/BracoRobo/Classes/Robo.cs:1859-2785 | each table entry's command has that mnemonic, of 1 to 3 characters, and is a real protocol command |
| Protocolo.DespachoSemRepouso | BracoRobo/BracoRobo/Classes/Robo.cs:1859-2791 | no frame dispatches to the internal rest-sequence commands IN1 and IN2 |
| Protocolo.Decimal | BracoRobo/BracoRobo/Classes/Robo.cs:1567 | the decimal text of a number is non-empty and all digits |
| Protocolo.Zeros | BracoRobo/BracoRobo/Classes/Robo.cs:1567 | k zeros |
| Protocolo.DecimalIdaEVolta | BracoRobo/BracoRobo/Classes/Robo.cs:1547-1560 | reading back the decimal text of n gives n |
| Protocolo.ZerosAEsquerda | BracoRobo/BracoRobo/Classes/Robo.cs:1547-1560 | leading zeros do not change a number's value |
| Protocolo.DecimalCurto | BracoRobo/BracoRobo/Classes/Robo.cs:1567 | numbers below 10000 take at most four digits |
| Protocolo.Valor4Decimal | BracoRobo/BracoRobo/Classes/Robo.cs:1547-1560 | the four-digit field read at index 0 is the number's value |
| Protocolo.FormataLe | BracoRobo/BracoRobo/Classes/Robo.cs:1547-1560 | the "0000" format of n in [0, 9999] is four digits that read back as n |
| Protocolo.Hex4 | BracoRobo/BracoRobo/Classes/Robo.cs:2534-2541 | the hexadecimal text of the 16-bit error word has four characters |
| Protocolo.SelecionavelDoComando | BracoRobo/BracoRobo/Classes/Robo.cs:1468-1488 | every frame of a three-letter command can go to servo selection |
| Protocolo.Selecionar | BracoRobo/BracoRobo/Classes/Robo.cs:1468-1488 | a servo selected from a configuration frame has an index in 0 .. 5 |
| Protocolo.Regravar | BracoRobo/BracoRobo/Classes/Robo.cs:1567-1578 | the rewritten frame keeps the first six characters, puts the value's four digits after them and closes with ']' |
| Protocolo.DecimalNaoVazio | BracoRobo/BracoRobo/Classes/Robo.cs:1567-1578 | the "0000" format has at least four characters |
| Protocolo.ValSet | BracoRobo/BracoRobo/Classes/Robo.cs:1527-1581 | an accepted frame becomes an 11-character frame ready to send, starting like the received one |
| Protocolo.ValsetDefine | BracoRobo/BracoRobo/Classes/Robo.cs:1542-1578 | an 11-character frame is accepted if and only if it holds four digits; 0 becomes 1, and the reply carries the value set |
| Protocolo.ValsetIdaEVolta | BracoRobo/BracoRobo/Classes/Robo.cs:1527-1581 | querying after a set reports the value set, in the same frame the set replied with |
| Protocolo.ValsetRecusa | BracoRobo/BracoRobo/Classes/Robo.cs:1527-1581 | VALSET refuses exactly the frames whose length is neither 7 nor 11 with four digits |
| Protocolo.LimitarJst | BracoRobo/BracoRobo/Classes/Robo.cs:1620-1636 | a JST value of 0 stays 0, any other is clamped into [min, max] and kept when already inside |
| Protocolo.ServoJst | BracoRobo/BracoRobo/Classes/Robo.cs:2143-2161 | letters A to E name joints 0 to 4, G the gripper, anything else no servo |
| Protocolo.AplicarJst | BracoRobo/BracoRobo/Classes/Robo.cs:2165-2189 | parsing the groups of a JST set frame keeps six targets and ends at a group index between the start and 7, where 7 marks an error |
| Protocolo.JstLimita | BracoRobo/BracoRobo/Classes/Robo.cs:2165-2189 | after a JST frame each target is unchanged, 0, or within its servo's limits |
| Protocolo.JstPasso | BracoRobo/BracoRobo/Classes/Robo.cs:2172-2188 | one group: an unknown letter stops at once; a known letter without four digits stops, keeping the channel for the first-channel computation; otherwise the clamped value is stored and parsing goes on |
| Protocolo.JstAbaixoDoPrimeiro | BracoRobo/BracoRobo/Classes/Robo.cs:2165-2189 | the first channel moved only decreases, and the targets below it are never touched |
| Protocolo.JstParcial | BracoRobo/BracoRobo/Classes/Robo.cs:2165-2195 | a frame whose second group is bad keeps the first group's target and still ends in error: the partial update is kept |
| Protocolo.JstUmGrupo | BracoRobo/BracoRobo/Classes/Robo.cs:2163-2212 | a single good group sets just that servo's clamped target, and the move starts at that channel |
| Protocolo.LedsDoQuadro | BracoRobo/BracoRobo/Classes/Robo.cs:1859-1874 | LED j is on exactly when character 11 - j of the frame is '1' |
| Protocolo.QuadroDosLeds | BracoRobo/BracoRobo/Classes/Robo.cs:1876-1905 | the LED query frame is "[LED" + one '1' or '0' per LED, LED 7 first, + "]" |
| Protocolo.LedIdaEVolta | BracoRobo/BracoRobo/Classes/Robo.cs:1859-1911 | setting the LEDs from a frame and querying them back gives the frame with every non-'1' as '0', and exactly the frame when it held only '0' and '1' |
| Acionamento.RegistroPreservado | BracoRobo/BracoRobo/Classes/Robo.cs:1654-1659 | recording a one-servo command, a multi-servo command or a reset keeps the in-flight record consistent |
| Acionamento.RegistroAcumula | BracoRobo/BracoRobo/Classes/Robo.cs:1936-1972 | two one-servo commands on the same channel stay one-servo; on different channels they become a multi-servo JST |
| Acionamento.RegistroVariosAbsorve | BracoRobo/BracoRobo/Classes/Robo.cs:1936-1972 | while a multi-servo command is in flight a one-servo command leaves the record unchanged |
| Acionamento.TemposDosCanaisTamanho | BracoRobo/BracoRobo/Classes/Robo.cs:1785-1792 | the position list of the multi-servo feedback has five characters per channel |
| Acionamento.IdsDosServos | BracoRobo/BracoRobo/Classes/Robo.cs:1331-1340 | the JST letters of the six servos are A, B, C, D, E and G |
| Acionamento.AlvosJstPasso | BracoRobo/BracoRobo/Classes/Robo.cs:1636-1637 | the JST target listing grows by one servo's letter and four digits per servo |
| Acionamento.AlvosJstTamanho | BracoRobo/BracoRobo/Classes/Robo.cs:2129-2135 | the listing of n targets below 9999 has five characters per servo |
| Acionamento.QuadroJstDeUm | BracoRobo/BracoRobo/Classes/Robo.cs:2143-2157 | the one-servo JST reply is the JST frame around that servo's group |
| Acionamento.JstConsultaReaplicada | BracoRobo/BracoRobo/Classes/Robo.cs:2139-2213 | sending back a one-servo JST reply as a command re-applies that servo's target, rounded and clamped, ends without error and starts the move at that channel |
| Acionamento.ModoIdaEVolta | BracoRobo/BracoRobo/Classes/Robo.cs:2448-2566 | the query reply of FRS, CSB or ECH after setting option d is exactly the frame that set it |
| Acionamento.ComCampo | BracoRobo/BracoRobo/Classes/Robo.cs:1464-1519 | writing a parameter of a servo's table sets exactly that parameter |
| Acionamento.IndiceSelecionado | BracoRobo/BracoRobo/Classes/Robo.cs:1464-1488 | the servo index a configuration frame selects lies in 0 .. 5 |
| Acionamento.RespostaAceita | BracoRobo/BracoRobo/Classes/Robo.cs:1489-1519 | an accepted configuration frame is answered with the rewritten frame |
| Acionamento.ConfigResponde | BracoRobo/BracoRobo/Classes/Robo.cs:1464-1581 | a configuration frame is accepted if and only if it names a servo and is a 7-character query or an 11-character set with four digits; a set stores the value (0 as 1), a query the current value; a refusal is a JNT NAK for a bad joint and the command's NAK otherwise |
| Acionamento.IdJst | BracoRobo/BracoRobo/Classes/Robo.cs:1331-1340 | each servo's JST letter is one character that the JST parser maps back to that servo |
| Acionamento.ConstantesCoerentes | BracoRobo/BracoRobo/Classes/Robo.cs:1206-1246 | every servo's minimum pulse is positive and below its maximum, the neutral and rest pulses lie between them, and four times the maximum fits in 16 bits |
| Acionamento.AlvoDaParadaComoEscrita | BracoRobo/BracoRobo/Classes/Robo.cs:1664-1674 | as written, the stop commands four times the position, capped at the maximum, so a channel below its maximum is driven up rather than held |
| Acionamento.AlvoDaParadaContraExemplo | BracoRobo/BracoRobo/Classes/Robo.cs:1664-1674 | a channel at position 4000 with maximum 9728 is sent to 9728 by the stop and moves |
| Acionamento.AlvoDaParadaCorrigida | BracoRobo/BracoRobo/Classes/Robo.cs:1787-1789 | passing the position in us, a channel whose minimum is a whole number of us gets a target at most 3 quarter-us below where it stands, and does not move when it stands on a whole us |
| Acionamento.PassoDoRepouso | BracoRobo/BracoRobo/Classes/Robo.cs:1349-1434 | each turn of the rest sequence stays in 0 .. 6 and either stays put (in the final state 1, or in state 3 or 5 while a move is in flight or the timer runs) or advances exactly one step |
| Acionamento.RepousoTermina | BracoRobo/BracoRobo/Classes/Robo.cs:1349-1434 | with no move in flight and the timer idle, n turns advance n steps, and the sequence is in its final state after six turns |
| Comandos.RespostaLedComoEscrita | BracoRobo/BracoRobo/Classes/Robo.cs:1866-1876 | the LED reply as written is an LED frame whose digit i is '1' exactly when LED 11 - i was switched on, so it matches the LEDs set |
| Comandos.RespostaLedContraExemplo | BracoRobo/BracoRobo/Classes/Robo.cs:1872 | `[LED20000000]` leaves LED 7 off, yet the reply still shows '2' and differs from the LED query frame |
| Comandos.RespostaLed | BracoRobo/BracoRobo/Classes/Robo.cs:1872 | the intended reply shows '1' where the frame had '1' and '0' elsewhere, and is the frame itself when it held only '0' and '1' |
| Comandos.LedComoEscritaECorrigida | BracoRobo/BracoRobo/Classes/Robo.cs:1872 | the written and intended replies agree if and only if every LED character is '0' or '1' |
| Comandos.CtzComoEscrito | BracoRobo/BracoRobo/Classes/Robo.cs:2018-2116 | as written, CTZ centres a servo exactly when the frame names one; a frame of a length other than 7 is first answered with a CTZ NAK |
| Comandos.CtzContraExemplo | BracoRobo/BracoRobo/Classes/Robo.cs:2020-2024 | `[CTZJ12]` is answered with a CTZ NAK and still centres joint 1 |
| Comandos.CtzRecusaOuMove | BracoRobo/BracoRobo/Classes/Robo.cs:2018-2116 | intended CTZ centres a servo if and only if the frame has 7 characters and names a servo, with no reply; otherwise it moves nothing and answers one NAK; on 7-character frames it agrees with the code as written |
| Comandos.GtpGarraContraExemplo | BracoRobo/BracoRobo/Classes/Robo.cs:2615-2636 | as written, syncing the gripper at position 8000 sets a target of 8000 us, which the board takes as 32000 quarter-us, while a joint at 8000 gets 2000 us, which the board takes as 8000; the gripper reply is the request `[GTPGRS]` itself, not the reply a joint gets |
| Comandos.GtpSincroniza | BracoRobo/BracoRobo/Classes/Robo.cs:2586-2603 | the intended synced target, taken by the board in quarter-us, is the position read; the reply repeats the servo name and carries the position as four digits, with an S when it syncs |
| Comandos.Gtp | BracoRobo/BracoRobo/Classes/Robo.cs:2567-2646 | a GTP that synchronises names a real channel |
| Comandos.GtpResponde | BracoRobo/BracoRobo/Classes/Robo.cs:2567-2646 | GTP answers a frame of the wrong shape with a NAK and an unknown servo with a JNT NAK, an unreadable position with ERR; otherwise it reports that servo's position as four digits and syncs exactly when the frame ends in S |
| Comandos.GtpComoEscrito | BracoRobo/BracoRobo/Classes/Robo.cs:2567-2646 | as written, GTP reads and syncs the same servo as intended and gives the same reply for a joint; for the gripper it replies with the request frame |
| Robo.NovosServos | BracoRobo/BracoRobo/Classes/Robo.cs:682-777 | six fresh, distinct servos with the names, angle limits, offsets and proportions the robot gives them, all pulses 0 |
| Robo.NovaPlaca | BracoRobo/BracoRobo/Classes/Robo.cs:644-777 | a fresh board whose six channels are bound to the six fresh servos, all at position 0 |
| Robo.Robo.ServosDaPlaca | BracoRobo/BracoRobo/Classes/Robo.cs:682-772 | the robot's servos are its board's servos, channel by channel, and distinct |
| Robo.Robo.constructor | BracoRobo/BracoRobo/Classes/Robo.cs:437-777 | the robot starts with fresh servos and board, every servo configured, its targets 0, the protocol state at its initial values and nothing written |
| Robo.Robo.CalibracaoDoServo | BracoRobo/BracoRobo/Classes/Robo.cs:1308-1328 | after start-up each servo's angle is at its limit at the end pulses and within its limits in between |
| Robo.Robo.IniciarServos | BracoRobo/BracoRobo/Classes/Robo.cs:1203-1343 | start-up configures every servo and channel, takes each target from the board's raw position (0 when the board reads 0xFFFF), commits it, and writes one INIT_CANAL_0k ERR per channel that reads 0xFFFF; with no such channel nothing is written; the protocol state is kept |
| Robo.Robo.SaidaComErrosIniciais | BracoRobo/BracoRobo/Classes/Robo.cs:1258-1263 | appending the channels' start-up errors one by one is appending all of them |
| Robo.Robo.SemErrosIniciais | BracoRobo/BracoRobo/Classes/Robo.cs:1258-1263 | when no channel reads 0xFFFF, start-up writes no error |
| Robo.Robo.LerAlvosIniciais | BracoRobo/BracoRobo/Classes/Robo.cs:1258-1263 | each servo's target is its initial target, and exactly the start-up errors are written |
| Robo.Robo.LerAlvoInicial | BracoRobo/BracoRobo/Classes/Robo.cs:1258-1263 | one servo's target is its initial target, and its error line is written if it has one |
| Robo.Robo.TempoPulsoInicial | BracoRobo/BracoRobo/Classes/Robo.cs:1444-1454 | the initial target is the raw position the board reports, unconverted, or 0 with an INIT_CANAL_0k ERR when the board reads 0xFFFF |
| Robo.Robo.ConfigurarServos | BracoRobo/BracoRobo/Classes/Robo.cs:1308-1328 | every channel and servo gets its limits, speed, acceleration and calibration |
| Robo.Robo.CommitTempos | BracoRobo/BracoRobo/Classes/Robo.cs:1037-1045 | each backup's target becomes its servo's target and nothing else in the backups changes |
| Robo.Robo.CommitVelocidades | BracoRobo/BracoRobo/Classes/Robo.cs:1066-1074 | each backup's speed becomes its servo's speed and nothing else in the backups changes |
| Robo.Robo.CommitAceleracoes | BracoRobo/BracoRobo/Classes/Robo.cs:1095-1103 | each backup's acceleration becomes its servo's acceleration and nothing else in the backups changes |
| Robo.Robo.RollbackTempos | BracoRobo/BracoRobo/Classes/Robo.cs:1051-1059 | each servo's target returns to its backup |
| Robo.Robo.RollbackVelocidades | BracoRobo/BracoRobo/Classes/Robo.cs:1080-1088 | each servo's speed returns to its backup |
| Robo.Robo.RollbackAceleracoes | BracoRobo/BracoRobo/Classes/Robo.cs:1109-1117 | each servo's acceleration returns to its backup |
| Robo.Robo.RespostaComando | BracoRobo/BracoRobo/Classes/Robo.cs:991-995 | a reply is an empty line followed by the reply line |
| Robo.Robo.EnviarFeedback | BracoRobo/BracoRobo/Classes/Robo.cs:1646-1650 | a feedback is written as a line break followed by the feedback, with no line break after it |
| Robo.Robo.GetCharBfRecebe | BracoRobo/BracoRobo/Classes/Robo.cs:829-843 | the first received character is taken off the input, or nothing when the input is empty |
| Robo.Robo.RecebeCaracteresDoProtocolo | BracoRobo/BracoRobo/Classes/Robo.cs:845-917 | one character is consumed and the reception state becomes Receber of it, with the echo written when echo is on; with no input nothing changes |
| Robo.Robo.ReceberCaractere | BracoRobo/BracoRobo/Classes/Robo.cs:852-915 | the reception state becomes Receber of the character and the echo follows the echo setting |
| Robo.Robo.Normalizado | BracoRobo/BracoRobo/Classes/Robo.cs:852-856 | the character is normalised, and the last character is updated only by letters, digits and brackets |
| Robo.Robo.Ecoar | BracoRobo/BracoRobo/Classes/Robo.cs:858-872 | the echo is written exactly when echo is on |
| Robo.Robo.Enquadrar | BracoRobo/BracoRobo/Classes/Robo.cs:873-915 | the framing step completes Receber |
| Robo.Robo.AlvosDaParada | BracoRobo/BracoRobo/Classes/Robo.cs:1664-1674 | the stop's target for each channel is its position, taken as us or converted to us |
| Robo.Robo.DefinirVelocidades | BracoRobo/BracoRobo/Classes/Robo.cs:1679-1689 | every channel's speed is set to the given one |
| Robo.Robo.DefinirAceleracoesEVelocidades | BracoRobo/BracoRobo/Classes/Robo.cs:1359-1364 | every channel's acceleration and speed are set to the given ones |
| Robo.Robo.ResetaVariaveisDeFeedBack | BracoRobo/BracoRobo/Classes/Robo.cs:1654-1659 | the in-flight record is reset |
| Robo.Robo.ParadaTotal | BracoRobo/BracoRobo/Classes/Robo.cs:1664-1674 | every channel gets as target its raw position, applied by SetTarget as written, and a moving board stays marked moving |
| Robo.Robo.PararCanais | BracoRobo/BracoRobo/Classes/Robo.cs:1668-1672 | each channel gets its stop target, and the board is marked moving if any channel moved |
| Robo.Robo.PararCanal | BracoRobo/BracoRobo/Classes/Robo.cs:1668-1672 | one channel gets its stop target, and the board is marked moving if it moved |
| Robo.Robo.RetomarVelocidadesAposParadaTotal1Servo | BracoRobo/BracoRobo/Classes/Robo.cs:1679-1689 | after a requested stop every channel gets back its servo's speed and the request is cleared; otherwise speeds stay |
| Robo.Robo.ComandoLed | BracoRobo/BracoRobo/Classes/Robo.cs:1859-1911 | a 13-character LED frame sets the LEDs from it and is answered with the frame as received; `[LED]` is answered with the LED frame; anything else gets a NAK |
| Robo.Robo.AjustarLeds | BracoRobo/BracoRobo/Classes/Robo.cs:1866-1874 | the LEDs become those of the frame |
| Robo.Robo.LerLeds | BracoRobo/BracoRobo/Classes/Robo.cs:1880-1905 | the LED query frame of the current LEDs |
| Robo.Robo.ComandoPrt | BracoRobo/BracoRobo/Classes/Robo.cs:1912-1935 | while moving, a stop is requested and every channel slows to speed 1 with no reply; at rest, PRT OK is answered and nothing changes |
| Robo.Robo.AcionarUmServo | BracoRobo/BracoRobo/Classes/Robo.cs:1936-1972 | the servo's target is sent to its channel and the command is recorded in flight |
| Robo.Robo.MoverServo | BracoRobo/BracoRobo/Classes/Robo.cs:1940-1944 | the servo's target is set and applied to its channel |
| Robo.Robo.RegistrarComandoUm | BracoRobo/BracoRobo/Classes/Robo.cs:1945-1970 | the in-flight record after a one-servo command is RegistrarUm of the old one |
| Robo.Robo.ComandoGarra | BracoRobo/BracoRobo/Classes/Robo.cs:1936-2017 | GA drives the gripper to its maximum pulse and GF to its minimum, recorded in flight |
| Robo.Robo.ComandoCtz | BracoRobo/BracoRobo/Classes/Robo.cs:2018-2116 | CTZ writes CtzComoEscrito's replies and, when the frame names a servo, sends it to its neutral pulse and records it in flight; otherwise nothing moves |
| Robo.Robo.CentrarServo | BracoRobo/BracoRobo/Classes/Robo.cs:2026-2065 | the servo goes to its neutral pulse and CTZ is recorded in flight |
| Robo.Robo.AcionarVarios | BracoRobo/BracoRobo/Classes/Robo.cs:2196-2260 | the given targets are applied to the range of channels, the move starts, a multi-servo command is recorded, nothing is written |
| Robo.Robo.JstDoServo | BracoRobo/BracoRobo/Classes/Robo.cs:1593-1640 | a set frame with four digits in the group stores the value, clamped unless 0, as the servo's target; without them it fails and keeps the targets; other frames only list; when it does not fail the reply grows by the servo's letter and target |
| Robo.Robo.AnexarAlvoJst | BracoRobo/BracoRobo/Classes/Robo.cs:1636-1637 | the reply grows by the servo's letter and its target in four digits |
| Robo.Robo.AjustarAlvoJst | BracoRobo/BracoRobo/Classes/Robo.cs:1615-1634 | the clamped value is stored if and only if the group holds four digits |
| Robo.Robo.JstConsulta | BracoRobo/BracoRobo/Classes/Robo.cs:2127-2138 | `[JST]` is answered with every servo's target |
| Robo.Robo.ListarAlvosJst | BracoRobo/BracoRobo/Classes/Robo.cs:2130-2134 | the reply grows by the listing of every target |
| Robo.Robo.JstUmServo | BracoRobo/BracoRobo/Classes/Robo.cs:2139-2162 | `[JSTx]` is answered with that servo's target, or with a JNT NAK for an unknown letter |
| Robo.Robo.JstGrupos | BracoRobo/BracoRobo/Classes/Robo.cs:2165-2189 | the loop over the groups leaves the targets AplicarJst computes and keeps those below the first channel |
| Robo.Robo.GrupoJst | BracoRobo/BracoRobo/Classes/Robo.cs:2172-2188 | one loop step keeps the outcome of AplicarJst from here on |
| Robo.Robo.JstAjustar | BracoRobo/BracoRobo/Classes/Robo.cs:2163-2213 | a JST set frame with an error is answered with a NAK and keeps whatever targets were already stored; a good one applies the targets from its first channel on, starts the move and records it, with no reply |
| Robo.Robo.TerminarJst | BracoRobo/BracoRobo/Classes/Robo.cs:2192-2213 | after the groups: on error a NAK and no move; otherwise the move from the first channel |
| Robo.Robo.AcionarJst | BracoRobo/BracoRobo/Classes/Robo.cs:2198-2213 | the targets from the first channel on are applied, the move starts and JST is recorded in flight |
| Robo.Robo.AlvosDeRepouso | BracoRobo/BracoRobo/Classes/Robo.cs:2234-2239 | RPS's targets are the rest pulses of joints 0 to 4; the gripper's entry is 0 and is not sent |
| Robo.Robo.ComandoRps | BracoRobo/BracoRobo/Classes/Robo.cs:2228-2253 | `[RPS]` sends joints 0 to 4 to their rest pulses and records the move; any other frame gets a NAK and moves nothing |
| Robo.Robo.ComandoDsl | BracoRobo/BracoRobo/Classes/Robo.cs:2261-2302 | `[DSL]` switches joints 0 to 4 off (target and position 0) and records it; any other frame gets a NAK and moves nothing |
| Robo.Robo.ConfigParamServo | BracoRobo/BracoRobo/Classes/Robo.cs:1464-1519 | the selected servo's parameter is set as ConfigResponde says; a refusal is answered, an acceptance is left for the caller to answer |
| Robo.Robo.ValsetDoServo | BracoRobo/BracoRobo/Classes/Robo.cs:1490-1518 | for a valid joint, the parameter follows VALSET and a refusal is answered |
| Robo.Robo.RecusarValset | BracoRobo/BracoRobo/Classes/Robo.cs:1558-1565 | a refused value is answered with the command's NAK |
| Robo.Robo.AceitarValset | BracoRobo/BracoRobo/Classes/Robo.cs:1567-1580 | an accepted value is written into the servo's parameter and the frame becomes the reply |
| Robo.Robo.GravarCampo | BracoRobo/BracoRobo/Classes/Robo.cs:1490-1517 | exactly the named parameter of the servo is written |
| Robo.Robo.ComandoTempo | BracoRobo/BracoRobo/Classes/Robo.cs:2303-2387 | TMX, TMN, T90 and TRP set or query the servo's pulse parameter and are answered as ConfigResponde says |
| Robo.Robo.ResponderSeAceito | BracoRobo/BracoRobo/Classes/Robo.cs:2303-2387 | the rewritten frame is answered only when accepted |
| Robo.Robo.ComandoVel | BracoRobo/BracoRobo/Classes/Robo.cs:2388-2417 | VEL sets or queries the speed and is answered as ConfigResponde says; when accepted, the board channel and the backup get the new speed, otherwise neither changes |
| Robo.Robo.AplicarVelocidade | BracoRobo/BracoRobo/Classes/Robo.cs:2388-2417 | an accepted speed reaches the channel and is committed, then the frame is answered |
| Robo.Robo.ComandoAcl | BracoRobo/BracoRobo/Classes/Robo.cs:2418-2447 | ACL sets or queries the acceleration and is answered as ConfigResponde says; when accepted, the board channel and the backup get the new acceleration, otherwise neither changes |
| Robo.Robo.AplicarAceleracao | BracoRobo/BracoRobo/Classes/Robo.cs:2418-2447 | an accepted acceleration reaches the channel and is committed, then the frame is answered |
| Robo.Robo.ComandoFrs | BracoRobo/BracoRobo/Classes/Robo.cs:2448-2491 | FRS with an option 0 to 2 sets the feedback mode and echoes the frame; `[FRS]` reports it; anything else gets a NAK |
| Robo.Robo.ComandoCsb | BracoRobo/BracoRobo/Classes/Robo.cs:2492-2533 | CSB with 0 or 1 sets blocking commands and echoes the frame; `[CSB]` reports it; anything else gets a NAK |
| Robo.Robo.ComandoEch | BracoRobo/BracoRobo/Classes/Robo.cs:2751-2782 | ECH with 0 or 1 sets the echo and echoes the frame; `[ECH]` reports it; anything else gets a NAK |
| Robo.Robo.ComandoEmm | BracoRobo/BracoRobo/Classes/Robo.cs:2534-2541 | EMM answers with the board's error word, always 0000 |
| Robo.Robo.ComandoGms | BracoRobo/BracoRobo/Classes/Robo.cs:2655-2678 | GMS answers 1 while the board moves and 0 otherwise |
| Robo.Robo.StatusDosServosLinhas | BracoRobo/BracoRobo/Classes/Robo.cs:2679-2698 | the status text has five lines per servo, servo after servo |
| Robo.Robo.EnviaStatusServo | BracoRobo/BracoRobo/Classes/Robo.cs:1124-1171 | one servo's five status lines are written |
| Robo.Robo.ComandoStt | BracoRobo/BracoRobo/Classes/Robo.cs:2679-2698 | STT writes a header, every servo's status and the LED status |
| Robo.Robo.ComandoRst | BracoRobo/BracoRobo/Classes/Robo.cs:2699-2740 | `[RSTM]` restarts the servos between two announcements; `[RST]` echoes, restarts and restarts the rest sequence; anything else gets a NAK and changes nothing |
| Robo.Robo.ReiniciarServos | BracoRobo/BracoRobo/Classes/Robo.cs:2701-2717 | the servos are started up again between the given announcements, with their start-up errors in between, and the rest state is set |
| Robo.Robo.ComandoGtp | BracoRobo/BracoRobo/Classes/Robo.cs:2567-2646 | GTP answers as GtpComoEscrito says and, when it syncs, sets and commits the servo's target as written; otherwise the targets stay |
| Robo.Robo.LerPosicaoGtp | BracoRobo/BracoRobo/Classes/Robo.cs:2584-2640 | an invalid position is answered with ERR; otherwise the as-written reply, with a sync when the frame ends in 'S' |
| Robo.Robo.ResponderGtp | BracoRobo/BracoRobo/Classes/Robo.cs:2588-2635 | the as-written reply is sent and a sync is done exactly when the frame ends in 'S' |
| Robo.Robo.SincronizarAlvo | BracoRobo/BracoRobo/Classes/Robo.cs:2593-2595 | the servo's target becomes its synced value and is committed |
| Robo.Robo.LerPosicoes | BracoRobo/BracoRobo/Classes/Robo.cs:1785-1792 | the six channel positions |
| Robo.Robo.PararSeSolicitado | BracoRobo/BracoRobo/Classes/Robo.cs:1712-1723 | a requested stop sends every channel to its stop target; with no request the board is untouched |
| Robo.Robo.FeedbackEmMovimento | BracoRobo/BracoRobo/Classes/Robo.cs:1704-1802 | while the command in flight moves: the record and the backups stay; after a requested stop every channel is sent to its stop target, in us under the multi-servo position feedback; the feedback of the mode is written |
| Robo.Robo.FeedbackDosCanais | BracoRobo/BracoRobo/Classes/Robo.cs:1781-1795 | the multi-servo position feedback lists every channel's position in us, and a requested stop sends each channel to that position |
| Robo.Robo.EnviarFeedbackAlvejados | BracoRobo/BracoRobo/Classes/Robo.cs:1794 | the feedback is written and the board is untouched |
| Robo.Robo.FeedbackDoServo | BracoRobo/BracoRobo/Classes/Robo.cs:1709-1726 | after a requested stop every channel is sent to its position as read, then the feedback of the mode is written |
| Robo.Robo.InformarServo | BracoRobo/BracoRobo/Classes/Robo.cs:1715-1725 | the feedback of the mode is written and the board is untouched |
| Robo.Robo.Siglas | BracoRobo/BracoRobo/Classes/Robo.cs:1740 | each servo's short name |
| Robo.Robo.ConcluirMovimento | BracoRobo/BracoRobo/Classes/Robo.cs:1728-1820 | a command that has stopped commits the targets, restores the speeds after a stop, is answered with the positions reached, and clears the in-flight record |
| Robo.Robo.ConfirmarAlvos | BracoRobo/BracoRobo/Classes/Robo.cs:1732-1734 | the targets are committed and the speeds restored after a stop |
| Robo.Robo.ResponderEResetar | BracoRobo/BracoRobo/Classes/Robo.cs:1746-1748 | the reply is written and the in-flight record reset |
| Robo.Robo.TextoDoFim | BracoRobo/BracoRobo/Classes/Robo.cs:1736-1744 | the completion reply of the command in flight |
| Robo.Robo.RespEFeedbackMovServos | BracoRobo/BracoRobo/Classes/Robo.cs:1697-1840 | with no command in flight nothing changes; a moving command gets its feedback (FeedbackEmMovimento); a stopped command is concluded (ConcluirMovimento) |
| Robo.Robo.AcompanharComando | BracoRobo/BracoRobo/Classes/Robo.cs:1702-1820 | the command in flight gets its feedback while moving and its completion once at rest |
| Robo.Robo.RepousoInicio | BracoRobo/BracoRobo/Classes/Robo.cs:1355-1368 | step 0 saves the feedback mode and sets it to servo targets, slows every channel to acceleration 2 and speed 10, and goes to step 2 |
| Robo.Robo.RepousoJunta0 | BracoRobo/BracoRobo/Classes/Robo.cs:1374-1385 | joint 0 goes to its rest pulse, recorded as IN1, and the sequence goes to state 3 |
| Robo.Robo.AlvosDaPosicaoDeRepouso | BracoRobo/BracoRobo/Classes/Robo.cs:1396-1400 | the targets of step 4 are every servo's rest pulse, the gripper's included |
| Robo.Robo.RepousoBraco | BracoRobo/BracoRobo/Classes/Robo.cs:1394-1409 | step 4 sends channels 1 to 5, gripper included, to their rest pulses, writes servo 0's target back to its rest pulse without moving its channel, records IN2 in flight and goes to step 5 |
| Robo.Robo.AcionarRepouso | BracoRobo/BracoRobo/Classes/Robo.cs:1396-1409 | the given targets are applied to channels 1 to 5, the move starts, IN2 is recorded and nothing is written |
| Robo.Robo.RepousoFim | BracoRobo/BracoRobo/Classes/Robo.cs:1420-1431 | step 6 gives every channel back its servo's acceleration and speed, restores the feedback mode, writes [PRONTO] and ends the sequence |
| Robo.Robo.RepousoEspera | BracoRobo/BracoRobo/Classes/Robo.cs:1387-1416 | steps 3 and 5 advance only when no command is in flight and the timer is idle |
| Robo.Robo.PosicaoRepouso | BracoRobo/BracoRobo/Classes/Robo.cs:1349-1434 | one turn of the rest sequence moves to ProximoEstado and does what that step does; steps 1, 3 and 5 change nothing else |
| Robo.Robo.ComandoJst | BracoRobo/BracoRobo/Classes/Robo.cs:2117-2215 | a JST frame of a length the command cannot have gets a NAK and changes nothing; the queries [JST] and [JSTx] leave the in-flight record alone |
| Robo.Robo.Executar | BracoRobo/BracoRobo/Classes/Robo.cs:2788-2791 | a frame naming no command is answered with CMD NAK and the board is untouched |
| Robo.Robo.DecodificaProtocolo | BracoRobo/BracoRobo/Classes/Robo.cs:1845-2792 | a frame naming no command is answered with CMD NAK and the board is untouched |
| Robo.Robo.AtenderProtocolo | BracoRobo/BracoRobo/Classes/Robo.cs:930-946 | a ready frame is decoded and cleared; otherwise, with blocking commands on and a command in flight nothing changes, and else one character is received |
| Robo.Robo.Turno | BracoRobo/BracoRobo/Classes/Robo.cs:928-950 | before the final rest state a turn takes the rest sequence's step as ProximoEstado says; in the final state a ready frame is decoded and cleared, or else one character is consumed unless blocking commands with a command in flight hold reception |
| Robo.Robo.Update | BracoRobo/BracoRobo/Classes/Robo.cs:926-954 | with the port closed nothing changes; with it open, before the final rest state the rest sequence takes its step as ProximoEstado says, and in the final state a ready frame is decoded and cleared, or else one character is consumed unless blocking commands with a command in flight hold reception |

## Left out

- Canal.CanalMiniMaestro.constructor: the channel's servo is a constant fixed at construction, never null. The source creates the channel without a servo and binds it afterwards (PlacaMiniMaestro24.cs:83; Robo.cs:682-772), and its setters test for null (CanalMiniMaestro.cs:65, 100). In the model the binding is made once and the null case cannot arise.
- Protocolo.LetraOuDigito: `char.IsLetterOrDigit` and `Char.IsDigit` (Robo.cs:852, 1547, 1620) are modelled on ASCII letters and digits only. This is exact for this program: the serial port decodes with its default ASCII encoding, which turns every byte above 127 into '?'.
- Robo.Robo.IniciarServos: the casts to ushort/UInt16 of pulse values (Robo.cs:1312-1313, 1510, 1516, 1718, 1742, 1787, 1812) are modelled as unbounded integers with floor. The robot's constants keep every value below 65536 (Acionamento.ConstantesCoerentes), so no wrap-around can occur.
- Robo.Robo.RespEFeedbackMovServos: the ERR branches with their rollback (Robo.cs:1750-1762, 1821-1833) are not modelled. The simulated board's moving state is only ever 0 or 1 (Placa.PlacaMiniMaestro24.GetMovingState), so these branches cannot run. The same holds for the ERR branches of VEL and ACL, because SetSpeed and SetAcceleration always succeed.
- Robo.Robo.Update: the board's System.Timers.Timer thread, the serial port's DataReceived event and the OnComando… events are not modelled. The model runs sequentially: the environment calls Placa.PlacaMiniMaestro24.TimerElapsed for each 10 ms tick and appends received characters to `bfRecebe`, and Update runs one game-loop turn. Interleavings of the timer thread with a handler are not captured.
- Placa.PlacaMiniMaestro24.TimerElapsed: the source stops the timer once every channel is at rest and restarts it from SetarTarget. The model leaves calling the tick to the environment. A tick on a board at rest changes only the 80 ms counter (Perfil.ParadoPermanece), and SetarTarget resets that counter.
- Perfil.Passo: convergence as the board runs it is proved only for channels without acceleration (Perfil.ConvergenciaVelocidadeConstante, Perfil.ConvergenciaAposSetarTarget; Perfil.Iterar fixes the 80 ms flag to false). With acceleration, the board as written can run a channel backwards past its start before it reaches its target (Aceleracao.MeioDoCaminhoContraExemplo, Aceleracao.MeioDoCaminhoDesvio); no bound on its arrival is proved. Convergence with acceleration is proved for the corrected tick, for a channel that starts at rest (Aceleracao.ConvergenciaComAceleracao). Not proved: channels on the reversal path armed by Perfil.SetarTargetReversao, and channels retargeted while still moving. For those only single-tick facts hold (Perfil.PassoLimitado, Perfil.PassoChegada, Perfil.PassoVelocidade).
- Robo.Robo.DecodificaProtocolo: its own contract states only the CMD NAK case and the robot's invariant. What each command does is stated by the handler it calls (Robo.Robo.ComandoLed, ComandoCtz, ComandoJst, ComandoGtp and the others above). The intermediate dispatchers DecodificaMovimento, DecodificaConfiguracao, DecodificaModos and DecodificaEstado only keep the invariant.
- Robo.Robo.ComandoJst: its own contract states only the NAK for a frame of impossible length and that the queries leave the in-flight record alone. What each case does is stated by the member it calls: Robo.Robo.JstConsulta for `[JST]`, Robo.Robo.JstUmServo for `[JSTx]` and Robo.Robo.JstAjustar for a set frame.
- Robo.Robo.ComandoRps: before SetMultipleTargets, the source also writes each servo's target pulse. The Target setter inside SetMultipleTargets overwrites those writes, so the model leaves them out. The same applies to Robo.Robo.ComandoDsl.
- Robo.Robo.AcionarUmServo: the source sets the target before it updates the in-flight record; the model updates the record first. The two touch disjoint fields, so the final state is the same.
- Robo.Robo.FeedbackDosCanais: the source reads each channel's position and then stops that channel, one channel at a time. The model reads all six positions first and then stops the channels. A channel's stop touches only that channel, so the positions read and the stop targets are the same.
- Robo.Robo.ComandoRst: the 5 s timer that RST starts is modelled only as Update's `timerAtivo` input. The LED animation is already commented out in the source and is not modelled.
- Servomotor.EscrevePulso: the AnguloCorrente setter's 3D side effects are not modelled: the shaft rotation of the 3D model, the console trace and the change event (Servomotor.cs:134-150). Only the angle value is kept.
- Robo.Robo.constructor: the 3D scene is not modelled: the bases, arm segments, motors' placement and the gripper mechanics. The serial port settings and the command-line arguments are not modelled either. Only the six servos, the board and the protocol state are built.
- Robo.Robo.ComandoStt: floating-point formatting is modelled by rounding to the nearest integer and four digits (Protocolo.FormataReal). Pulse values in the model are `real`, not 32-bit floats.

## Findings

| source | as written | input that shows it | evidently intended | confidence | as-written member | corrected member |
|---|---|---|---|---|---|---|
| BracoRobo/BracoRobo/Classes/Robo.cs:1872 | `bufferProto.Replace(...)` discards its result, so the LED reply is the received frame unchanged | `[LED20000000]`: LED 7 stays off, but the reply shows '2' | the reply shows the LEDs as set: '1' where set, '0' elsewhere | not executed | Comandos.RespostaLedComoEscrita, Comandos.RespostaLedContraExemplo | Comandos.RespostaLed, Comandos.LedComoEscritaECorrigida |
| BracoRobo/BracoRobo/Classes/Robo.cs:2020-2024 | a CTZ frame of the wrong length is answered with a NAK and is still decoded and executed | `[CTZJ12]`: CTZ NAK, then joint 1 is centred | a NAK ends the command; nothing moves | not executed | Comandos.CtzComoEscrito, Comandos.CtzContraExemplo | Comandos.Ctz, Comandos.CtzRecusaOuMove |
| BracoRobo/BracoRobo/Classes/Robo.cs:2626-2635 | GTP on the gripper syncs the target to the raw position in quarter-us and replies with the request | `[GTPGRS]` with the gripper at position 8000: target 8000 us (32000 quarter-us), reply `[GTPGRS]` | sync to position/4 us and reply with the position, as for the joints | not executed | Comandos.GtpComoEscrito, Comandos.GtpGarraContraExemplo | Comandos.Gtp, Comandos.GtpResponde, Comandos.GtpSincroniza |
| BracoRobo/BracoRobo/Classes/Robo.cs:1670-1671 | ParadaTotal passes the position in quarter-us to SetTarget, which multiplies by 4 (PlacaMiniMaestro24.cs:285), so the stop drives the channel to 4 times its position, capped at the maximum | a channel at position 4000 with maximum 9728: the stop sends it to 9728 and it moves | hold each channel where it is by passing the position in us, as the multi-servo position feedback already does (Robo.cs:1787-1789) | not executed | Acionamento.AlvoDaParadaComoEscrita, Acionamento.AlvoDaParadaContraExemplo | Acionamento.AlvoDaParadaCorrigida |
| BracoRobo/BracoRobo/Classes/PlacaMiniMaestro24.cs:212-223 | a channel with no speed left lands on its target only when strictly past the midpoint (`position > positionMedia`), while the deceleration switch at lines 131-135 fires already on the midpoint (`>=`); a channel whose speed falls to 0 exactly on the midpoint stands there, and at the next 80 ms tick its speed turns negative and it runs backwards past its start before it turns round | a channel at 6000, speed 40, acceleration 10, sent to 6160 (midpoint 6080): at 6080 from tick 16 to 23, 6070 at tick 24, 5980 at tick 32, down to 5280 at tick 55, on 6160 only at tick 77 instead of 16 | land on the target when no speed is left at or past the midpoint, as the deceleration switch decides | not executed | Aceleracao.MeioDoCaminhoContraExemplo, Aceleracao.MeioDoCaminhoDesvio | Aceleracao.PassoCorrigido, Aceleracao.ConvergenciaComAceleracao |

The robot (module `Robo`) and the board (module `Placa`) run the code as written for all five rows:

- `ComandoLed` replies with `RespostaLedComoEscrita`.
- `ComandoCtz` follows `CtzComoEscrito`.
- `ComandoGtp` follows `GtpComoEscrito`.
- `ParadaTotal` targets the raw position.
- `TimerElapsed` takes `Perfil.Passo`, with the strict midpoint test.

The corrected definitions are proved beside them. The multi-servo position feedback stops channels as the source does there, in us, which is the corrected form.
