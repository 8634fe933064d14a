/** The heading greeting: the local hour classified into morning, afternoon
    and evening, and the text shown before the hour has been read. */
module Greeting {
  import opened Types

  const Morning := "Good Morning \U{2600}\U{FE0F}"
  const Afternoon := "Good Afternoon \U{1F324}\U{FE0F}"
  const Evening := "Good Evening \U{1F319}"
  const Fallback := "You're Back!"

  /** The greeting for an hour: before noon, before five in the afternoon,
      and from then on. */
  function GreetingFor(hour: int): (g: string)
    ensures hour < 12 ==> g == Morning
    ensures 12 <= hour < 17 ==> g == Afternoon
    ensures 17 <= hour ==> g == Evening
  {
    if hour < 12 then Morning
    else if hour < 17 then Afternoon
    else Evening
  }

  /** Each hour of the day gets exactly one of the three greetings, and
      which one is decided by the hour's band alone. */
  lemma GreetingPartition(hour: int)
    requires 0 <= hour < 24
    ensures GreetingFor(hour) in {Morning, Afternoon, Evening}
    ensures GreetingFor(hour) == Morning <==> hour < 12
    ensures GreetingFor(hour) == Afternoon <==> 12 <= hour < 17
    ensures GreetingFor(hour) == Evening <==> 17 <= hour
  {
    assert Morning != Afternoon && Morning != Evening && Afternoon != Evening by {
      assert Morning[5] != Afternoon[5] && Morning[5] != Evening[5] && Afternoon[5] != Evening[5];
    }
  }

  /** Later hours never give an earlier part of the day. */
  lemma GreetingMonotone(h1: int, h2: int)
    requires h1 <= h2
    ensures GreetingFor(h1) == Evening ==> GreetingFor(h2) == Evening
    ensures GreetingFor(h2) == Morning ==> GreetingFor(h1) == Morning
  {
    assert Morning != Evening && Afternoon != Evening && Afternoon != Morning by {
      assert Morning[5] != Evening[5] && Afternoon[5] != Evening[5] && Afternoon[5] != Morning[5];
    }
  }

  /** The heading: the fallback while no greeting is set (null or empty),
      otherwise the greeting. */
  function Heading(greeting: Option<string>): (h: string)
    ensures greeting.None? ==> h == Fallback
    ensures greeting.Some? && greeting.value != "" ==> h == greeting.value
    ensures greeting.Some? && greeting.value == "" ==> h == Fallback
    ensures h != ""
  {
    match greeting
    case Some(g) => if g != "" then g else Fallback
    case None => Fallback
  }
}
