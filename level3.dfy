/** Level 3, "Cuidador de la Chachacoma": each day the player may water, fertilize
    and expose the plant to the sun; the day then decays the meters, draws the
    weather, and scores the plant's health. Five healthy days in a row make one
    infusion, and the third infusion completes the level. */
module Level3 {
  import opened Common

  datatype Temperature = Fria | Calida

  /** The three toggles chosen for the coming day. */
  datatype Actions = Actions(regar: bool, fertilizar: bool, exposerSol: bool)

  datatype ActionKind = Regar | Fertilizar | ExposerSol

  /** The level's game record (the message list is kept beside it, in the class). */
  datatype GameState = GameState(
    agua: int,
    sol: int,
    nutrientes: int,
    salud: int,
    temperatura: Temperature,
    dia: int,
    diasSaludable: int,
    puntuacion: int,
    infusionesCreadas: int,
    gameOver: bool,
    gameCompleted: bool)

  const Initial := GameState(45, 80, 55, 100, Fria, 1, 0, 0, 0, false, false)
  const NoActions := Actions(false, false, false)

  /** Days of health above 80 in a row that make one infusion. */
  const StreakLength := 5
  const InfusionPoints := 50
  const InfusionGoal := 3

  /** The three colours of a meter's bar (and of its status icon). */
  datatype Band = Low | InBand | High

  /** A meter is in band between its bounds inclusive, low below the lower bound
      and high otherwise: every value falls in exactly one band. */
  function Classify(valor: int, min: int, max: int): (b: Band)
    ensures b == InBand <==> min <= valor <= max
    ensures b == Low <==> valor < min
    ensures b == High <==> min <= valor && max < valor
  {
    if min <= valor <= max then InBand
    else if valor < min then Low
    else High
  }

  /** One meter through one day: the optional boost capped at 100, then the daily
      decay floored at 0. */
  function Step(v: int, on: bool, boost: nat, decay: nat): (r: int)
    ensures r >= 0
    ensures v <= 100 ==> r <= Max(0, 100 - decay)
    ensures !on ==> r == Max(0, v - decay)
    ensures on && v + boost <= 100 ==> r == Max(0, v + boost - decay)
    ensures on && v <= 100 && v + boost > 100 ==> r == Max(0, 100 - decay)
  {
    Max(0, (if on then Min(100, v + boost) else v) - decay)
  }

  predicate MetersInRange(s: GameState) {
    0 <= s.agua <= 100 && 0 <= s.sol <= 100 && 0 <= s.nutrientes <= 100
  }

  /** The morning of a day: the chosen boosts (water +25, nutrients +20, sun +15)
      and the decay (water -8, sun -5, nutrients -3) move the meters, and the
      weather draw sets the temperature; nothing else changes. */
  function ProcesarAcciones(s: GameState, a: Actions, hot: bool): (r: GameState)
    ensures r.agua == Step(s.agua, a.regar, 25, 8)
    ensures r.nutrientes == Step(s.nutrientes, a.fertilizar, 20, 3)
    ensures r.sol == Step(s.sol, a.exposerSol, 15, 5)
    ensures r.temperatura == Calida <==> hot
    ensures r.(agua := s.agua, sol := s.sol, nutrientes := s.nutrientes, temperatura := s.temperatura) == s
    ensures MetersInRange(s) ==> MetersInRange(r)
    ensures s.agua <= 100 ==> r.agua <= 92
  {
    s.(agua := Step(s.agua, a.regar, 25, 8),
       sol := Step(s.sol, a.exposerSol, 15, 5),
       nutrientes := Step(s.nutrientes, a.fertilizar, 20, 3),
       temperatura := if hot then Calida else Fria)
  }

  /** The ideal conditions: water in [30,60], sun in [60,100], nutrients in [40,70]. */
  predicate Ideal(s: GameState): (b: bool)
    ensures b ==> s.agua <= 70 && s.sol >= 40
  {
    Classify(s.agua, 30, 60) == InBand && Classify(s.sol, 60, 100) == InBand
    && Classify(s.nutrientes, 40, 70) == InBand
  }

  /** The day's change of health before clamping: -15 for too much water, -20 for
      a warm day, -10 for too little sun, +5 in ideal conditions. */
  function HealthChange(s: GameState): (d: int)
    ensures -45 <= d <= 5
    ensures Ideal(s) && s.temperatura == Fria ==> d == 5
    ensures Ideal(s) && s.temperatura == Calida ==> d == -15
    ensures s.temperatura == Calida || s.agua > 70 ==> d <= -10
    ensures d > 0 <==> Ideal(s) && s.temperatura == Fria
  {
    (if s.agua > 70 then -15 else 0)
    + (if s.temperatura == Calida then -20 else 0)
    + (if s.sol < 40 then -10 else 0)
    + (if Ideal(s) then 5 else 0)
  }

  /** The notices a day can raise, in the order they are raised. */
  datatype Message = Encharcada | Calor | FaltaSol | Condiciones | Infusion

  datatype Tipo = Warning | Success

  /** Too much water, heat and too little sun are warnings; the rest are good news. */
  function TipoOf(m: Message): (t: Tipo)
    ensures t == Success <==> m == Condiciones || m == Infusion
  {
    match m
    case Encharcada => Warning
    case Calor => Warning
    case FaltaSol => Warning
    case Condiciones => Success
    case Infusion => Success
  }

  datatype Entry = Entry(texto: Message, tipo: Tipo)

  const BufferSize := 5

  /** Adding a message: it goes first and at most the four newest older ones stay. */
  function Push(buf: seq<Entry>, e: Entry): (r: seq<Entry>)
    ensures |r| == Min(BufferSize, |buf| + 1)
    ensures r[0] == e
    ensures forall i :: 0 < i < |r| ==> r[i] == buf[i - 1]
  {
    [e] + buf[..Min(BufferSize - 1, |buf|)]
  }

  /** Adding a day's messages one after the other. */
  function PushAll(buf: seq<Entry>, ms: seq<Message>): (r: seq<Entry>)
    ensures |r| == if ms == [] then |buf| else Min(BufferSize, |buf| + |ms|)
    ensures forall i :: |ms| <= i < |r| ==> r[i] == buf[i - |ms|]
  {
    if ms == [] then buf
    else
      var front := PushAll(buf, ms[..|ms| - 1]);
      assert forall i :: |ms| - 1 <= i < |front| ==> front[i] == buf[i - (|ms| - 1)];
      Push(front, Entry(ms[|ms| - 1], TipoOf(ms[|ms| - 1])))
  }

  /** After adding messages the buffer starts with the newest ones, newest first. */
  lemma {:induction false} PushAllNewestFirst(buf: seq<Entry>, ms: seq<Message>)
    ensures forall i :: 0 <= i < Min(BufferSize, |ms|) ==>
      PushAll(buf, ms)[i] == Entry(ms[|ms| - 1 - i], TipoOf(ms[|ms| - 1 - i]))
  {
    if ms != [] {
      var front := ms[..|ms| - 1];
      PushAllNewestFirst(buf, front);
      forall i | 0 < i < Min(BufferSize, |ms|)
        ensures PushAll(buf, ms)[i] == Entry(ms[|ms| - 1 - i], TipoOf(ms[|ms| - 1 - i]))
      {
        assert front[|front| - 1 - (i - 1)] == ms[|ms| - 1 - i];
      }
    }
  }

  /** The notices of an evening, one per condition that holds: too much water,
      heat, too little sun, ideal conditions, a new infusion. Ideal conditions
      exclude both too much water and too little sun, so at most four are raised. */
  function Notices(s: GameState, infusion: bool): (ms: seq<Message>)
    ensures Encharcada in ms <==> s.agua > 70
    ensures Calor in ms <==> s.temperatura == Calida
    ensures FaltaSol in ms <==> s.sol < 40
    ensures Condiciones in ms <==> Ideal(s)
    ensures Infusion in ms <==> infusion
    ensures |ms| <= 4
  {
    (if s.agua > 70 then [Encharcada] else [])
    + (if s.temperatura == Calida then [Calor] else [])
    + (if s.sol < 40 then [FaltaSol] else [])
    + (if Ideal(s) then [Condiciones] else [])
    + (if infusion then [Infusion] else [])
  }

  /** What the evening of a day produces: the new record, the notices raised, and
      the completion when one is reported. */
  datatype DayOutcome = DayOutcome(state: GameState, mensajes: seq<Message>, event: Option<Completion>)

  /** The evening of a day: health moves by the day's change and is clamped to
      [0,100]; a day above 80 extends the healthy streak, any other day breaks it;
      the fifth healthy day makes an infusion worth 50 points and restarts the
      streak; the third infusion completes the level once; health 0 ends the game. */
  function CalcularSalud(s: GameState): (r: DayOutcome)
    ensures r.state.salud == Max(0, Min(100, s.salud + HealthChange(s)))
    ensures 0 <= r.state.salud <= 100
    ensures r.state.gameOver <==> r.state.salud == 0
    ensures r.state.salud <= 80 ==>
      (r.state.diasSaludable == 0 && r.state.infusionesCreadas == s.infusionesCreadas)
    ensures r.state.salud > 80 && s.diasSaludable + 1 < StreakLength ==>
      (r.state.diasSaludable == s.diasSaludable + 1 && r.state.infusionesCreadas == s.infusionesCreadas)
    ensures r.state.salud > 80 && s.diasSaludable + 1 >= StreakLength ==>
      (r.state.diasSaludable == 0 && r.state.infusionesCreadas == s.infusionesCreadas + 1)
    ensures r.state.puntuacion - s.puntuacion == InfusionPoints * (r.state.infusionesCreadas - s.infusionesCreadas)
    ensures r.event.Some? <==>
      (r.state.infusionesCreadas > s.infusionesCreadas && r.state.infusionesCreadas >= InfusionGoal && !s.gameCompleted)
    ensures r.event.Some? ==> r.event.value == Completion(3, r.state.puntuacion)
    ensures r.state.gameCompleted <==> s.gameCompleted || r.event.Some?
    ensures r.state.(salud := s.salud, diasSaludable := s.diasSaludable, puntuacion := s.puntuacion,
                     infusionesCreadas := s.infusionesCreadas, gameOver := s.gameOver,
                     gameCompleted := s.gameCompleted) == s
    ensures Encharcada in r.mensajes <==> s.agua > 70
    ensures Calor in r.mensajes <==> s.temperatura == Calida
    ensures FaltaSol in r.mensajes <==> s.sol < 40
    ensures Condiciones in r.mensajes <==> Ideal(s)
    ensures Infusion in r.mensajes <==> r.state.infusionesCreadas > s.infusionesCreadas
    ensures |r.mensajes| <= 4
  {
    var salud := Max(0, Min(100, s.salud + HealthChange(s)));
    var racha := if salud > 80 then s.diasSaludable + 1 else 0;
    var infusion := racha >= StreakLength;
    var infusiones := if infusion then s.infusionesCreadas + 1 else s.infusionesCreadas;
    var puntuacion := if infusion then s.puntuacion + InfusionPoints else s.puntuacion;
    var completes := infusion && infusiones >= InfusionGoal && !s.gameCompleted;
    var mensajes := Notices(s, infusion);
    DayOutcome(
      s.(salud := salud,
         diasSaludable := if infusion then 0 else racha,
         infusionesCreadas := infusiones,
         puntuacion := puntuacion,
         gameOver := salud <= 0,
         gameCompleted := s.gameCompleted || completes),
      mensajes,
      if completes then Some(Completion(3, puntuacion)) else None)
  }

  /** A whole day: the morning's actions and weather, the day count, the evening. */
  function Day(s: GameState, a: Actions, hot: bool): (r: DayOutcome)
    ensures r.state.dia == s.dia + 1
    ensures MetersInRange(s) ==> MetersInRange(r.state)
  {
    CalcularSalud(ProcesarAcciones(s, a, hot).(dia := s.dia + 1))
  }

  /** What holds of the record between days. */
  predicate Inv(s: GameState) {
    && MetersInRange(s)
    && 0 <= s.salud <= 100
    && 0 <= s.diasSaludable < StreakLength
    && s.infusionesCreadas >= 0
    && s.puntuacion == InfusionPoints * s.infusionesCreadas
    && (s.gameCompleted <==> s.infusionesCreadas >= InfusionGoal)
    && (s.gameOver <==> s.salud == 0)
  }

  lemma InitialInv()
    ensures Inv(Initial) && !Initial.gameOver && !Initial.gameCompleted
  {
  }

  /** A day keeps the invariant: meters in range, streak below five, 50 points per
      infusion, completed exactly from the third infusion on. */
  lemma DayKeepsInv(s: GameState, a: Actions, hot: bool)
    requires Inv(s)
    ensures Inv(Day(s, a, hot).state)
  {
  }

  /** The completion a day reports scores 150: three infusions of 50 points. */
  lemma CompletionScores150(s: GameState, a: Actions, hot: bool)
    requires Inv(s)
    ensures Day(s, a, hot).event.Some? ==>
      Day(s, a, hot).event.value == Completion(3, InfusionGoal * InfusionPoints)
    ensures InfusionGoal * InfusionPoints == 150
  {
  }

  /** One player's turn: the toggles chosen and the day's weather draw. */
  datatype Turn = Turn(actions: Actions, hot: bool)

  /** Playing turns one after another while the game is not over (the button that
      advances the day is disabled once it is). */
  function Play(s: GameState, turns: seq<Turn>): (r: GameState)
    decreases |turns|
  {
    if turns == [] || s.gameOver then s
    else Play(Day(s, turns[0].actions, turns[0].hot).state, turns[1..])
  }

  /** How many completions the turns report. */
  function Completions(s: GameState, turns: seq<Turn>): (n: nat)
    decreases |turns|
  {
    if turns == [] || s.gameOver then 0
    else
      var o := Day(s, turns[0].actions, turns[0].hot);
      (if o.event.Some? then 1 else 0) + Completions(o.state, turns[1..])
  }

  /** The level is reported complete at most once per game, and never again once
      it has been. */
  lemma {:induction false} AtMostOneCompletion(s: GameState, turns: seq<Turn>)
    requires Inv(s)
    ensures Completions(s, turns) <= (if s.gameCompleted then 0 else 1)
    ensures Inv(Play(s, turns))
    decreases |turns|
  {
    if turns != [] && !s.gameOver {
      var o := Day(s, turns[0].actions, turns[0].hot);
      DayKeepsInv(s, turns[0].actions, turns[0].hot);
      AtMostOneCompletion(o.state, turns[1..]);
    }
  }

  /** Each day adds at most one to the streak, and an infusion uses up five, so
      progress never outruns the days played. */
  lemma {:induction false} ProgressBoundedByDays(s: GameState, turns: seq<Turn>)
    requires Inv(s)
    ensures var f := Play(s, turns);
      StreakLength * f.infusionesCreadas + f.diasSaludable
        <= StreakLength * s.infusionesCreadas + s.diasSaludable + |turns|
    ensures s.dia <= Play(s, turns).dia <= s.dia + |turns|
    decreases |turns|
  {
    if turns != [] && !s.gameOver {
      var o := Day(s, turns[0].actions, turns[0].hot);
      DayKeepsInv(s, turns[0].actions, turns[0].hot);
      ProgressBoundedByDays(o.state, turns[1..]);
    }
  }

  /** From a fresh game, the level cannot be completed in fewer than fifteen days. */
  lemma CompletionTakesFifteenDays(turns: seq<Turn>)
    requires Play(Initial, turns).gameCompleted
    ensures |turns| >= StreakLength * InfusionGoal
  {
    ProgressBoundedByDays(Initial, turns);
    AtMostOneCompletion(Initial, turns);
  }

  class Level3 {
    var state: GameState
    var actions: Actions
    /** The notice buffer, newest first. */
    var mensajes: seq<Entry>

    ghost predicate Valid()
      reads this
    {
      Inv(state) && |mensajes| <= BufferSize
    }

    constructor ()
      ensures Valid()
      ensures state == Initial && actions == NoActions && mensajes == []
    {
      state, actions, mensajes := Initial, NoActions, [];
    }

    /** Flipping one of the three toggles; the others and the record stay. */
    method Toggle(kind: ActionKind)
      requires Valid()
      modifies this
      ensures Valid() && state == old(state) && mensajes == old(mensajes)
      ensures actions.regar == (if kind == Regar then !old(actions.regar) else old(actions.regar))
      ensures actions.fertilizar == (if kind == Fertilizar then !old(actions.fertilizar) else old(actions.fertilizar))
      ensures actions.exposerSol == (if kind == ExposerSol then !old(actions.exposerSol) else old(actions.exposerSol))
    {
      match kind
      case Regar => actions := actions.(regar := !actions.regar);
      case Fertilizar => actions := actions.(fertilizar := !actions.fertilizar);
      case ExposerSol => actions := actions.(exposerSol := !actions.exposerSol);
    }

    method AgregarMensaje(m: Message)
      requires Valid()
      modifies this
      ensures Valid() && state == old(state) && actions == old(actions)
      ensures mensajes == Push(old(mensajes), Entry(m, TipoOf(m)))
    {
      mensajes := Push(mensajes, Entry(m, TipoOf(m)));
    }

    /** "Avanzar día" (disabled once the game is over): the day's actions and
        weather, the toggles cleared, the day counted, the evening scored, and each
        of its notices added to the buffer in turn. */
    method AvanzarDia(hot: bool) returns (event: Option<Completion>)
      requires Valid() && !state.gameOver
      modifies this
      ensures Valid()
      ensures state == Day(old(state), old(actions), hot).state
      ensures event == Day(old(state), old(actions), hot).event
      ensures mensajes == PushAll(old(mensajes), Day(old(state), old(actions), hot).mensajes)
      ensures actions == NoActions
    {
      DayKeepsInv(state, actions, hot);
      var o := Day(state, actions, hot);
      state, actions, event := o.state, NoActions, o.event;
      AgregarMensajes(o.mensajes);
    }

    /** The evening's notices, added to the buffer one after the other. */
    method AgregarMensajes(ms: seq<Message>)
      requires Valid()
      modifies this
      ensures Valid() && state == old(state) && actions == old(actions)
      ensures mensajes == PushAll(old(mensajes), ms)
    {
      ghost var start := mensajes;
      var i := 0;
      while i < |ms|
        invariant 0 <= i <= |ms|
        invariant state == old(state) && actions == old(actions) && |mensajes| <= BufferSize
        invariant mensajes == PushAll(start, ms[..i])
      {
        assert ms[..i + 1][..i] == ms[..i];
        AgregarMensaje(ms[i]);
        i := i + 1;
      }
      assert ms[..i] == ms;
    }

    method ReiniciarJuego()
      modifies this
      ensures Valid()
      ensures state == Initial && actions == NoActions && mensajes == []
    {
      state, actions, mensajes := Initial, NoActions, [];
    }
  }
}
