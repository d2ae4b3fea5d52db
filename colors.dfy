/**
 * Named colours (src/colors.rs).
 *
 * A colour is four `f32` channels in the order red, green, blue, alpha. The
 * only channel values the source writes are the exact constants 0.0 and 1.0,
 * so the channels are modelled as `real`.
 */
module Colors {
  import opened Wrappers

  /** The `[f32; 4]` array a colour wraps. */
  type Rgba = s: seq<real> | |s| == 4 witness [0.0, 0.0, 0.0, 0.0]

  datatype Color = Color(channels: Rgba)

  const BLACK: Color := Color([0.0, 0.0, 0.0, 1.0])
  const WHITE: Color := Color([1.0, 1.0, 1.0, 1.0])
  const RED: Color := Color([1.0, 0.0, 0.0, 1.0])
  const GREEN: Color := Color([0.0, 1.0, 0.0, 1.0])
  const BLUE: Color := Color([0.0, 0.0, 1.0, 1.0])

  /** The five names `ColorFromName` recognises, each with its constant. */
  const NamedColors: map<string, Color> :=
    map["black" := BLACK, "white" := WHITE, "red" := RED, "green" := GREEN, "blue" := BLUE]

  function Alpha(c: Color): real {
    c.channels[3]
  }

  /** `Color::new`: the channels are stored in the order given. */
  function New(red: real, green: real, blue: real, alpha: real): (r: Color)
    ensures Into(r) == [red, green, blue, alpha]
  {
    Color([red, green, blue, alpha])
  }

  /** `Into<[f32; 4]> for Color`: the wrapped array. */
  function Into(c: Color): (r: Rgba)
    ensures Color(r) == c
  {
    c.channels
  }

  /** Converting a freshly built colour gives back its channels in order. */
  lemma IntoNew(red: real, green: real, blue: real, alpha: real)
    ensures Into(New(red, green, blue, alpha)) == [red, green, blue, alpha]
  {
  }

  /** Every colour is the one built from its own channels. */
  lemma NewInto(c: Color)
    ensures var a := Into(c); New(a[0], a[1], a[2], a[3]) == c
  {
  }

  /**
   * `color_from_name`: a case-sensitive lookup of the five lower-case names;
   * every other string, "Red" included, gives `None`.
   */
  function ColorFromName(name: string): (r: Option<Color>)
    ensures r.Some? <==> name in NamedColors
    ensures r.Some? ==> r.value == NamedColors[name]
  {
    match name
    case "black" => Some(BLACK)
    case "white" => Some(WHITE)
    case "red" => Some(RED)
    case "green" => Some(GREEN)
    case "blue" => Some(BLUE)
    case _ => None
  }

  /** Every named colour is opaque. */
  lemma NamedColorsOpaque(name: string)
    requires ColorFromName(name).Some?
    ensures Alpha(ColorFromName(name).value) == 1.0
  {
  }

  /** Names differing only in case are not recognised. */
  lemma LookupIsCaseSensitive()
    ensures ColorFromName("Red") == None
    ensures ColorFromName("BLACK") == None
    ensures ColorFromName("Blue") == None
  {
  }

  /** The five constants are pairwise distinct, so two names give the same colour only if they are the same name. */
  lemma ColorFromNameInjective(a: string, b: string)
    requires ColorFromName(a).Some?
    requires ColorFromName(a) == ColorFromName(b)
    ensures a == b
  {
  }
}
