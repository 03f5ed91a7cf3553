/**
 * The two scene-graph primitives a cross line draws with, reduced to the
 * state the cross line sets: a path as a list of drawing commands plus the
 * style fields it assigns, and a group with a visibility flag and children.
 */
module Scene {
  import opened Wrappers

  datatype PathCommand = MoveTo(x: real, y: real) | LineTo(x: real, y: real) | Close

  class Path {
    var commands: seq<PathCommand>
    var fill: Option<string>
    var stroke: Option<string>
    var strokeWidth: real
    var opacity: real

    constructor ()
      ensures commands == []
    {
      commands := [];
    }

    /** Drops every command (`path.clear`). */
    method Clear()
      modifies this`commands
      ensures commands == []
    {
      commands := [];
    }

    /** Starts a new sub-path at (x, y). */
    method MoveTo(x: real, y: real)
      modifies this`commands
      ensures commands == old(commands) + [PathCommand.MoveTo(x, y)]
    {
      commands := commands + [PathCommand.MoveTo(x, y)];
    }

    /** Draws a segment to (x, y). */
    method LineTo(x: real, y: real)
      modifies this`commands
      ensures commands == old(commands) + [PathCommand.LineTo(x, y)]
    {
      commands := commands + [PathCommand.LineTo(x, y)];
    }

    /** Closes the current sub-path. */
    method ClosePath()
      modifies this`commands
      ensures commands == old(commands) + [Close]
    {
      commands := commands + [Close];
    }
  }

  class Group {
    var visible: bool
    var children: seq<Path>

    constructor ()
      ensures children == []
    {
      children := [];
    }

    /** Adds `nodes` after the existing children (drawn above them). */
    method Append(nodes: seq<Path>)
      modifies this`children
      ensures children == old(children) + nodes
    {
      children := children + nodes;
    }
  }
}
