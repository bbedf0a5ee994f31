/**
  The badge styles the admin tables give to severities, statuses and roles.
  Each style is one of a few tones; `ClassName` is the class string the tone
  stands for.
*/
module Badges {

  datatype Tone = Green | Orange | Blue | DestructiveSoft | Destructive | Secondary

  /** A tinted badge: a faint background, text and border in `colour`. */
  function Tinted(colour: string): string {
    "bg-" + colour + "/10 text-" + colour + " border-" + colour + "/20"
  }

  /** A solid badge: the `name` background with its foreground text. */
  function Solid(name: string): string {
    "bg-" + name + " text-" + name + "-foreground"
  }

  /** The class string of a tone; the tone can be read back from it. */
  function ClassName(t: Tone): (c: string)
    ensures |c| > 14 && ToneOfClass(c) == t
  {
    match t
    case Green => Tinted("green-500")
    case Orange => Tinted("orange-500")
    case Blue => Tinted("blue-500")
    case DestructiveSoft => Tinted("destructive")
    case Destructive => Solid("destructive")
    case Secondary => Solid("secondary")
  }

  /** The tone a class string stands for, read off the fourth character
      (the colour) and, for the two destructive styles, the fifteenth. */
  function ToneOfClass(c: string): Tone
    requires |c| > 14
  {
    if c[3] == 'g' then Green
    else if c[3] == 'o' then Orange
    else if c[3] == 'b' then Blue
    else if c[3] == 'd' then (if c[14] == '/' then DestructiveSoft else Destructive)
    else Secondary
  }

  /** Different tones give different class strings, so badges with
      different tones look different. */
  lemma ClassNameInjective(a: Tone, b: Tone)
    ensures ClassName(a) == ClassName(b) <==> a == b
  {
  }

  /** The style every lookup falls back to for a value it does not know. */
  const DefaultTone: Tone := Secondary
}
