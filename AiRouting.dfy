/** The routing decision of the confidence library (ai-confidence/src/ai_confidence/routing.py). */
module AiRouting {

  /** Straight-through processing, assisted review, escalation, or a block. */
  datatype Routing = Stp | Assist | Escalate | Block

  /** The name the report carries. */
  function Name(r: Routing): (name: string)
    ensures name in {"stp", "assist", "escalate", "block"}
  {
    match r
    case Stp => "stp"
    case Assist => "assist"
    case Escalate => "escalate"
    case Block => "block"
  }

  /** How much automation a decision allows: `Block` least, `Stp` most. */
  function Rank(r: Routing): nat
  {
    match r
    case Block => 0
    case Escalate => 1
    case Assist => 2
    case Stp => 3
  }

  /** `route`: thresholds 80, 60 and 10 on the 0..100 confidence. */
  function Route(conf: int): (r: Routing)
    ensures r == Stp <==> conf >= 80
    ensures r == Assist <==> 60 <= conf < 80
    ensures r == Escalate <==> 10 <= conf < 60
    ensures r == Block <==> conf < 10
  {
    if conf >= 80 then Stp
    else if conf >= 60 then Assist
    else if conf >= 10 then Escalate
    else Block
  }

  /** A higher confidence never routes to a stricter decision. */
  lemma RouteMonotone(a: int, b: int)
    requires a <= b
    ensures Rank(Route(a)) <= Rank(Route(b))
  {
  }

  /** Distinct decisions have distinct names. */
  lemma NamesDistinct(r: Routing, s: Routing)
    requires Name(r) == Name(s)
    ensures r == s
  {
    assert Name(Stp)[0] == 's' && Name(Assist)[0] == 'a' && Name(Escalate)[0] == 'e' && Name(Block)[0] == 'b';
  }
}
