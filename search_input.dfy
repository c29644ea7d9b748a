/** The search field: two flags, focused and filled, kept up to date by the
    focus and blur handlers, and the icon tint they decide. */
module SearchInput {

  /** The parent's callbacks the field calls. */
  datatype Callback = FocusEnter | FocusExit

  /** The icon tint when the field is focused or filled. */
  const HighlightColor: string := "#C72828"

  /** The icon tint otherwise. */
  const IdleColor: string := "#B7B7CC"

  class Input {
    var isFocused: bool
    var isFilled: bool

    constructor ()
      ensures !isFocused && !isFilled
      ensures !Highlighted()
    {
      isFocused := false;
      isFilled := false;
    }

    predicate Highlighted()
      reads this
    {
      isFocused || isFilled
    }

    /** The colour of the search icon. */
    function IconColor(): (color: string)
      reads this
      ensures (color == HighlightColor) == Highlighted()
      ensures (color == IdleColor) == !Highlighted()
    {
      if Highlighted() then HighlightColor else IdleColor
    }

    /** handleInputFocus: marks the field focused and calls onFocusEnter when
        the parent passed one; returns the callbacks called, in order. */
    method HandleInputFocus(hasOnFocusEnter: bool) returns (called: seq<Callback>)
      modifies this`isFocused
      ensures isFocused && isFilled == old(isFilled)
      ensures Highlighted()
      ensures called == if hasOnFocusEnter then [FocusEnter] else []
    {
      isFocused := true;
      called := [];
      if hasOnFocusEnter {
        called := called + [FocusEnter];
      }
    }

    /** handleInputBlur: marks the field unfocused, records whether the
        current value is non-empty, and calls onFocusExit once. */
    method HandleInputBlur(value: string) returns (called: seq<Callback>)
      modifies this`isFocused, this`isFilled
      ensures !isFocused && (isFilled <==> value != "")
      ensures Highlighted() <==> value != ""
      ensures called == [FocusExit]
    {
      isFocused := false;
      isFilled := value != "";
      called := [FocusExit];
    }
  }
}
