/** The part of the SDL canvas the renderers use: every draw call is recorded,
    in order, as a command. Setting the draw colour and filling or outlining a
    rectangle are recorded together, since the renderers always set the colour
    right before drawing. */
module Draw {

  /** An SDL colour with its alpha channel. */
  datatype Color = Color(r: nat, g: nat, b: nat, a: nat)

  /** `Color::RGB`: an opaque colour. */
  function Rgb(r: nat, g: nat, b: nat): Color {
    Color(r, g, b, 255)
  }

  /** `Rect::new(x, y, w, h)`. */
  datatype Rect = Rect(x: int, y: int, w: nat, h: nat)

  /** The point (px, py) lies in `rect`. */
  predicate InRect(rect: Rect, px: int, py: int) {
    rect.x <= px < rect.x + rect.w && rect.y <= py < rect.y + rect.h
  }

  datatype Command =
    | ClearWith(color: Color)
    | Fill(rect: Rect, color: Color)
    | Outline(rect: Rect, color: Color)
    | Label(x: int, y: int, text: string, color: Color)

  class Canvas {
    var commands: seq<Command>

    constructor ()
      ensures commands == []
    {
      commands := [];
    }

    /** `set_draw_color(color)` then `clear()`. */
    method Clear(color: Color)
      modifies this
      ensures commands == old(commands) + [ClearWith(color)]
    {
      commands := commands + [ClearWith(color)];
    }

    /** `set_draw_color(color)` then `fill_rect(rect)`. */
    method FillRect(rect: Rect, color: Color)
      modifies this
      ensures commands == old(commands) + [Fill(rect, color)]
    {
      commands := commands + [Fill(rect, color)];
    }

    /** `set_draw_color(color)` then `draw_rect(rect)`. */
    method DrawRect(rect: Rect, color: Color)
      modifies this
      ensures commands == old(commands) + [Outline(rect, color)]
    {
      commands := commands + [Outline(rect, color)];
    }

    /** A text rendered with the font and copied with its top-left corner at (x, y). */
    method DrawLabel(x: int, y: int, text: string, color: Color)
      modifies this
      ensures commands == old(commands) + [Label(x, y, text, color)]
    {
      commands := commands + [Label(x, y, text, color)];
    }
  }
}
