/** The pressure button prop (Button): a latch that the player presses by walking
    into it, that tells its subscribers when it is pressed, and that is cleared
    silently. */
module Props {
  import opened Common
  import GameFlow

  /** IButtonSubscriber.NotifyButtonPressed (the button itself is implicit). */
  datatype ButtonEvent = NotifyButtonPressed

  /** The fields the button changes: IsPressed, the animator's IsPressed parameter
      and the notifications sent so far. */
  datatype ButtonState = ButtonState(pressed: bool, animatorPressed: bool, deliveries: seq<Delivery<ButtonEvent>>)

  /** Press: every subscriber is notified once, in order, and the button is pressed. */
  function Pressed(s: ButtonState, subscribers: seq<SubscriberId>): (r: ButtonState)
    ensures r.pressed && r.animatorPressed
    ensures r.deliveries == s.deliveries + Broadcast(subscribers, NotifyButtonPressed)
  {
    ButtonState(true, true, s.deliveries + Broadcast(subscribers, NotifyButtonPressed))
  }

  /** Unpress: the button is released and no one is told. */
  function Unpressed(s: ButtonState): (r: ButtonState)
    ensures !r.pressed && !r.animatorPressed
    ensures r.deliveries == s.deliveries
  {
    s.(pressed := false, animatorPressed := false)
  }

  /** OnTriggerEnter2D: only the player, and only on a button not pressed yet,
      presses it; anything else does nothing. */
  function Triggered(s: ButtonState, subscribers: seq<SubscriberId>, tag: string): (r: ButtonState)
    ensures !s.pressed && tag == GameFlow.PlayerTag ==> r == Pressed(s, subscribers)
    ensures s.pressed || tag != GameFlow.PlayerTag ==> r == s
    ensures r.pressed <==> s.pressed || tag == GameFlow.PlayerTag
  {
    if !s.pressed && tag == GameFlow.PlayerTag then Pressed(s, subscribers) else s
  }

  /** The trigger entries of a run, in order. */
  function TriggerAll(s: ButtonState, subscribers: seq<SubscriberId>, tags: seq<string>): ButtonState
    decreases |tags|
  {
    if tags == [] then s else TriggerAll(Triggered(s, subscribers, tags[0]), subscribers, tags[1..])
  }

  /** However many objects enter the trigger, the subscribers are told at most once:
      exactly once when the button was not pressed and the player is among them. */
  lemma {:induction false} RepeatedTriggersNotifyOnce(s: ButtonState, subscribers: seq<SubscriberId>, tags: seq<string>)
    ensures var r := TriggerAll(s, subscribers, tags);
            && (r.pressed <==> s.pressed || GameFlow.PlayerTag in tags)
            && r.deliveries == s.deliveries +
                 (if !s.pressed && GameFlow.PlayerTag in tags then Broadcast(subscribers, NotifyButtonPressed) else [])
    decreases |tags|
  {
    if tags != [] {
      var g := Triggered(s, subscribers, tags[0]);
      RepeatedTriggersNotifyOnce(g, subscribers, tags[1..]);
      assert tags == [tags[0]] + tags[1..];
      assert GameFlow.PlayerTag in tags <==> tags[0] == GameFlow.PlayerTag || GameFlow.PlayerTag in tags[1..];
      if !s.pressed && tags[0] == GameFlow.PlayerTag {
        assert g.pressed;
      }
    }
  }

  /** What the button receives: an object entering its trigger, or an unpress. */
  datatype ButtonInput = TriggerEnter(tag: string) | UnpressInput

  function Step(s: ButtonState, subscribers: seq<SubscriberId>, input: ButtonInput): ButtonState {
    match input
    case TriggerEnter(tag) => Triggered(s, subscribers, tag)
    case UnpressInput => Unpressed(s)
  }

  function Run(s: ButtonState, subscribers: seq<SubscriberId>, inputs: seq<ButtonInput>): ButtonState
    decreases |inputs|
  {
    if inputs == [] then s else Run(Step(s, subscribers, inputs[0]), subscribers, inputs[1..])
  }

  function Unpresses(inputs: seq<ButtonInput>): nat
    decreases |inputs|
  {
    if inputs == [] then 0 else (if inputs[0].UnpressInput? then 1 else 0) + Unpresses(inputs[1..])
  }

  function Armed(s: ButtonState): nat {
    if s.pressed then 0 else 1
  }

  /** `n` whole rounds of press notifications, each one delivery per subscriber in
      subscription order. */
  function Rounds(subscribers: seq<SubscriberId>, n: nat): (r: seq<Delivery<ButtonEvent>>)
    ensures |r| == n * |subscribers|
    decreases n
  {
    if n == 0 then [] else Rounds(subscribers, n - 1) + Broadcast(subscribers, NotifyButtonPressed)
  }

  lemma {:induction false} RoundsSplit(subscribers: seq<SubscriberId>, a: nat, b: nat)
    ensures Rounds(subscribers, a) + Rounds(subscribers, b) == Rounds(subscribers, a + b)
    decreases b
  {
    if b == 0 {
      assert Rounds(subscribers, a) + [] == Rounds(subscribers, a);
    } else {
      RoundsSplit(subscribers, a, b - 1);
    }
  }

  /** Over any run, the subscribers are notified in whole rounds, and the rounds
      (plus one if the button ends unpressed) never exceed the unpresses (plus one if it
      started unpressed): a press is announced at most once per unpress. */
  lemma {:induction false} PressRoundsBoundedByUnpresses(s: ButtonState, subscribers: seq<SubscriberId>, inputs: seq<ButtonInput>)
    ensures var r := Run(s, subscribers, inputs);
            exists rounds: nat ::
              && r.deliveries == s.deliveries + Rounds(subscribers, rounds)
              && rounds + Armed(r) <= Unpresses(inputs) + Armed(s)
    decreases |inputs|
  {
    var r := Run(s, subscribers, inputs);
    if inputs == [] {
      assert r.deliveries == s.deliveries + Rounds(subscribers, 0);
    } else {
      var g := Step(s, subscribers, inputs[0]);
      var pressed := inputs[0].TriggerEnter? && !s.pressed && inputs[0].tag == GameFlow.PlayerTag;
      var first: nat := if pressed then 1 else 0;
      assert Rounds(subscribers, 1) == Broadcast(subscribers, NotifyButtonPressed);
      assert g.deliveries == s.deliveries + Rounds(subscribers, first);
      assert first + Armed(g) <= (if inputs[0].UnpressInput? then 1 else 0) + Armed(s);
      PressRoundsBoundedByUnpresses(g, subscribers, inputs[1..]);
      var rest: nat :| r.deliveries == g.deliveries + Rounds(subscribers, rest)
                       && rest + Armed(r) <= Unpresses(inputs[1..]) + Armed(g);
      RoundsSplit(subscribers, first, rest);
      assert r.deliveries == s.deliveries + Rounds(subscribers, first + rest);
    }
  }

  class Button {
    const initiallyPressed: bool
    /** The MonoSubscribable subscriber list, in subscription order. */
    var subscribers: seq<SubscriberId>
    var isPressed: bool
    var animatorPressed: bool
    var deliveries: seq<Delivery<ButtonEvent>>

    function Snapshot(): ButtonState
      reads this
    {
      ButtonState(isPressed, animatorPressed, deliveries)
    }

    /** Awake: the button and its animator start in the configured state. */
    constructor (initiallyPressed: bool, subscribers: seq<SubscriberId>)
      ensures Snapshot() == ButtonState(initiallyPressed, initiallyPressed, [])
      ensures this.initiallyPressed == initiallyPressed && this.subscribers == subscribers
    {
      this.initiallyPressed := initiallyPressed;
      this.subscribers := subscribers;
      deliveries := [];
      animatorPressed := initiallyPressed;
      isPressed := initiallyPressed;
    }

    method Press()
      modifies this
      ensures Snapshot() == Pressed(old(Snapshot()), subscribers)
      ensures subscribers == old(subscribers)
    {
      ghost var before := deliveries;
      var i := 0;
      while i < |subscribers|
        modifies this`deliveries
        invariant 0 <= i <= |subscribers|
        invariant deliveries == before + Broadcast(subscribers[..i], NotifyButtonPressed)
      {
        BroadcastSnoc(subscribers, i, NotifyButtonPressed);
        deliveries := deliveries + [Delivery(subscribers[i], NotifyButtonPressed)];
        i := i + 1;
      }
      assert subscribers[..i] == subscribers;
      animatorPressed := true;
      isPressed := true;
    }

    method Unpress()
      modifies this
      ensures Snapshot() == Unpressed(old(Snapshot()))
      ensures subscribers == old(subscribers)
    {
      animatorPressed := false;
      isPressed := false;
    }

    /** OnTriggerEnter2D; `tag` is the entering collider's tag. */
    method OnTriggerEnter2D(tag: string)
      modifies this
      ensures Snapshot() == Triggered(old(Snapshot()), subscribers, tag)
      ensures subscribers == old(subscribers)
    {
      if !isPressed && tag == GameFlow.PlayerTag {
        Press();
      }
    }
  }
}
