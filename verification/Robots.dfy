/**
 * Three threads take turns with three POSIX semaphores: Bart, Lisa, Maggie, Lisa, and again.
 */
module Robots {

  datatype Name = Bart | Lisa | Maggie

  /** The places in a thread's loop. */
  datatype Place = Wait | Print | Post

  datatype State = State(
    bartS: nat, lisaS: nat, maggieS: nat,          // the semaphores
    bart: Place, lisa: Place, maggie: Place,       // where each thread stands
    second: bool,                                  // Lisa is in the second half of her loop
    words: seq<Name>)

  function Init(): State {
    State(1, 0, 0, Wait, Wait, Wait, false, [])
  }

  function Units(s: State, n: Name): nat {
    match n case Bart => s.bartS case Lisa => s.lisaS case Maggie => s.maggieS
  }

  function PlaceOf(s: State, n: Name): Place {
    match n case Bart => s.bart case Lisa => s.lisa case Maggie => s.maggie
  }

  /** A thread can go on unless it waits for a semaphore that has no unit. */
  predicate Enabled(s: State, n: Name) {
    PlaceOf(s, n) == Wait ==> Units(s, n) > 0
  }

  function BartNext(s: State): State
    requires Enabled(s, Bart)
  {
    match s.bart
    case Wait => s.(bartS := s.bartS - 1, bart := Print)
    case Print => s.(words := s.words + [Bart], bart := Post)
    case Post => s.(lisaS := s.lisaS + 1, bart := Wait)
  }

  function LisaNext(s: State): State
    requires Enabled(s, Lisa)
  {
    match s.lisa
    case Wait => s.(lisaS := s.lisaS - 1, lisa := Print)
    case Print => s.(words := s.words + [Lisa], lisa := Post)
    case Post =>
      if s.second then s.(bartS := s.bartS + 1, lisa := Wait, second := false)
      else s.(maggieS := s.maggieS + 1, lisa := Wait, second := true)
  }

  function MaggieNext(s: State): State
    requires Enabled(s, Maggie)
  {
    match s.maggie
    case Wait => s.(maggieS := s.maggieS - 1, maggie := Print)
    case Print => s.(words := s.words + [Maggie], maggie := Post)
    case Post => s.(lisaS := s.lisaS + 1, maggie := Wait)
  }

  function Next(s: State, n: Name): State
    requires Enabled(s, n)
  {
    match n case Bart => BartNext(s) case Lisa => LisaNext(s) case Maggie => MaggieNext(s)
  }

  // ---------------------------------------------------------------- what every run keeps

  /** The endless repetition Bart, Lisa, Maggie, Lisa. */
  function Script(k: nat): Name {
    match k % 4 case 0 => Bart case 2 => Maggie case _ => Lisa
  }

  /** A unit of a semaphore, or a thread between its wait and its post. */
  function Tokens(s: State): nat {
    s.bartS + s.lisaS + s.maggieS
    + (if s.bart == Wait then 0 else 1) + (if s.lisa == Wait then 0 else 1) + (if s.maggie == Wait then 0 else 1)
  }

  /** How many turns have been finished: the words, less one whose thread has yet to post. */
  function Turns(s: State): int {
    |s.words| - (if s.bart == Post || s.lisa == Post || s.maggie == Post then 1 else 0)
  }

  ghost predicate Inv(s: State) {
    && (forall k :: 0 <= k < |s.words| ==> s.words[k] == Script(k))
    && Turns(s) >= 0
    && Tokens(s) == 1
    && Units(s, Script(Turns(s))) + (if PlaceOf(s, Script(Turns(s))) == Wait then 0 else 1) == 1
    && (s.second <==> Turns(s) % 4 >= 2)
  }

  /** The token is with the thread whose turn it is, so that thread can go on and no other can. */
  lemma OneCanMove(s: State, n: Name)
    requires Inv(s)
    ensures Enabled(s, n) <==> n == Script(Turns(s))
  {}

  lemma StepKeepsInv(s: State, n: Name)
    requires Inv(s) && Enabled(s, n)
    ensures Inv(Next(s, n))
  {
    OneCanMove(s, n);
    var t := Turns(s);
    assert Script(t + 1) != n;
  }

  ghost predicate IsRun(states: seq<State>, who: seq<Name>) {
    && |states| == |who| + 1 && states[0] == Init()
    && forall i :: 0 <= i < |who| ==> Enabled(states[i], who[i]) && states[i + 1] == Next(states[i], who[i])
  }

  lemma {:induction false} RunKeepsInv(states: seq<State>, who: seq<Name>, i: nat)
    requires IsRun(states, who) && i < |states|
    ensures Inv(states[i])
  {
    if i > 0 {
      RunKeepsInv(states, who, i - 1);
      StepKeepsInv(states[i - 1], who[i - 1]);
    }
  }

  /** However the threads interleave, the words come in the order of the script, and exactly one thread can always go on. */
  lemma WordsFollowScript(states: seq<State>, who: seq<Name>, i: nat)
    requires IsRun(states, who) && i < |states|
    ensures forall k :: 0 <= k < |states[i].words| ==> states[i].words[k] == Script(k)
    ensures Tokens(states[i]) == 1
    ensures exists n :: Enabled(states[i], n) && forall m :: Enabled(states[i], m) ==> m == n
  {
    RunKeepsInv(states, who, i);
    var n := Script(Turns(states[i]));
    OneCanMove(states[i], n);
    forall m | Enabled(states[i], m)
      ensures m == n
    {
      OneCanMove(states[i], m);
    }
  }

  /** A step of the thread whose turn it is brings the next word nearer: every third step of a run prints one. */
  lemma EveryThirdStepPrints(states: seq<State>, who: seq<Name>, i: nat)
    requires IsRun(states, who) && i < |states|
    ensures |states[i].words| == (i + 1) / 3
  {
    Paced(states, who, i);
  }

  /** The place of the thread that holds the token tells how far the turn has got. */
  function Phase(s: State): nat {
    if s.bart == Post || s.lisa == Post || s.maggie == Post then 2
    else if s.bart == Print || s.lisa == Print || s.maggie == Print then 1
    else 0
  }

  lemma StepIsPaced(s: State, n: Name)
    requires Inv(s) && Enabled(s, n)
    ensures 3 * Turns(Next(s, n)) + Phase(Next(s, n)) == 3 * Turns(s) + Phase(s) + 1
  {
    OneCanMove(s, n);
  }

  lemma {:induction false} Paced(states: seq<State>, who: seq<Name>, i: nat)
    requires IsRun(states, who) && i < |states|
    ensures i == 3 * Turns(states[i]) + Phase(states[i])
    decreases i
  {
    if i > 0 {
      Paced(states, who, i - 1);
      RunKeepsInv(states, who, i - 1);
      StepIsPaced(states[i - 1], who[i - 1]);
    }
  }

  // ---------------------------------------------------------------- the three loops in place

  /** The semaphores and the threads' places. */
  class Table {
    var bartS: nat
    var lisaS: nat
    var maggieS: nat
    var bart: Place
    var lisa: Place
    var maggie: Place
    var second: bool
    ghost var words: seq<Name>     // what has been printed

    ghost function Value(): State
      reads this
    {
      State(bartS, lisaS, maggieS, bart, lisa, maggie, second, words)
    }

    constructor ()
      ensures Value() == Init()
    {
      bartS, lisaS, maggieS := 1, 0, 0;
      bart, lisa, maggie, second, words := Wait, Wait, Wait, false, [];
    }

    /** One step of bart's loop. */
    method BartGoes()
      requires Inv(Value()) && Enabled(Value(), Bart)
      modifies this
      ensures Inv(Value()) && Value() == Next(old(Value()), Bart)
    {
      StepKeepsInv(Value(), Bart);
      match bart
      case Wait => bartS, bart := bartS - 1, Print;
      case Print => words, bart := words + [Bart], Post;
      case Post => lisaS, bart := lisaS + 1, Wait;
    }

    /** One step of lisa's loop, which waits, prints and posts twice. */
    method LisaGoes()
      requires Inv(Value()) && Enabled(Value(), Lisa)
      modifies this
      ensures Inv(Value()) && Value() == Next(old(Value()), Lisa)
    {
      StepKeepsInv(Value(), Lisa);
      match lisa
      case Wait => lisaS, lisa := lisaS - 1, Print;
      case Print => words, lisa := words + [Name.Lisa], Post;
      case Post =>
        if second {
          bartS := bartS + 1;
        } else {
          maggieS := maggieS + 1;
        }
        lisa, second := Wait, !second;
    }

    /** One step of maggie's loop. */
    method MaggieGoes()
      requires Inv(Value()) && Enabled(Value(), Maggie)
      modifies this
      ensures Inv(Value()) && Value() == Next(old(Value()), Maggie)
    {
      StepKeepsInv(Value(), Maggie);
      match maggie
      case Wait => maggieS, maggie := maggieS - 1, Print;
      case Print => words, maggie := words + [Name.Maggie], Post;
      case Post => lisaS, maggie := lisaS + 1, Wait;
    }
  }
}
