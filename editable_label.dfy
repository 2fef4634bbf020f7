/** The editable label of the dashboard: a label that shows a Tk variable,
    and whose overlaid entry can change it. Its edit-session callbacks write
    the shared `update_state` flags and the bound variable. */
module EditableLabels {
  import opened Coordination

  /** One label as its callbacks see it: the name it writes into the flags,
      the field of its bound variable and the contents of the overlaid
      entry. The label has no text of its own: it is built with the variable
      as its `textvariable`, so it always shows the variable. */
  datatype Label = Label(name: string, field: Field, buffer: string)

  /** A label together with the state it shares with the dashboard. */
  datatype Session = Session(widget: Label, shared: Shared)

  /** What the label shows, which is also what `cget("text")` returns: its
      bound variable's value. */
  function Shown(s: Session): string
    requires s.widget.field in s.shared.values
  {
    Display(s.shared.values[s.widget.field])
  }

  /** Double-click: the entry is filled with what the label shows and the
      label takes the editing flag, whoever held it before. */
  function AfterEditStart(s: Session): Session
    requires s.widget.field in s.shared.values
  {
    Session(s.widget.(buffer := Shown(s)), s.shared.(editing := s.widget.name))
  }

  /** Return: the entry's text goes, unchecked, to the bound variable, which
      the label then shows; the commit flag names this label. */
  function AfterEditSave(s: Session): Session {
    Session(s.widget,
            s.shared.(commit := s.widget.name, values := s.shared.values[s.widget.field := Text(s.widget.buffer)]))
  }

  /** Focus lost: both flags are cleared. The entry's text is configured as
      the label's text, but the label goes on showing its variable, which
      this callback does not write. */
  function AfterEditStop(s: Session): Session {
    Session(s.widget, s.shared.(editing := "", commit := ""))
  }

  /** Escape: the entry is emptied and both flags are cleared. */
  function AfterEditCancel(s: Session): Session {
    Session(s.widget.(buffer := ""), s.shared.(editing := "", commit := ""))
  }

  /** A second edit start, on another label or the same one, takes the
      editing flag: nothing checks whether the flag was already held. When the
      first entry still has the focus, its focus-loss callback follows and
      clears the flag again (FocusHandoverReleasesLock). */
  lemma LastEditStartWins(first: Label, second: Label, shared: Shared)
    requires first.field in shared.values && second.field in shared.values
    ensures var s := AfterEditStart(Session(first, shared)).shared;
            AfterEditStart(Session(second, s)).shared.editing == second.name
            && AfterEditStart(Session(second, s)).shared.commit == shared.commit
  {}

  /** The entry that Return or Escape hides keeps the keyboard focus, so the
      next edit start, which moves the focus to its own entry, is followed by
      the earlier label's focus-loss callback. That callback clears the flag
      the new edit has just taken, and any pending commit with it; the
      variables are untouched. */
  lemma FocusHandoverReleasesLock(earlier: Label, later: Label, shared: Shared)
    requires later.field in shared.values
    ensures var started := AfterEditStart(Session(later, shared));
            var r := AfterEditStop(Session(earlier, started.shared));
            && started.shared.editing == later.name
            && r.shared.editing == "" && r.shared.commit == ""
            && r.shared.values == shared.values
  {}

  /** Losing focus right after Return withdraws the commit Return asked for,
      while the typed text stays in the bound variable and so on the label. */
  lemma FocusLossWithdrawsCommit(s: Session)
    ensures var r := AfterEditStop(AfterEditSave(s));
            && r.shared.commit == "" && r.shared.editing == ""
            && r.shared.values == s.shared.values[s.widget.field := Text(s.widget.buffer)]
            && Shown(r) == s.widget.buffer
  {}

  /** Losing focus without Return discards what was typed: the variable, and
      so the label, keep the value they had. */
  lemma FocusLossDiscardsTyping(s: Session, typed: string)
    requires s.widget.field in s.shared.values
    ensures var started := AfterEditStart(s);
            var r := AfterEditStop(Session(started.widget.(buffer := typed), started.shared));
            && r.shared.values == s.shared.values
            && Shown(r) == Shown(s)
            && r.shared.editing == "" && r.shared.commit == ""
  {}

  /** Return on an untouched entry stores the shown text in the variable: the
      label shows the same, and an integer reads back from it unchanged. The
      read-back is a property of the display (what an IntVar's `get` would
      parse); the model's save itself stores values without converting them. */
  lemma UntouchedSaveReadsBack(s: Session)
    requires s.widget.field in s.shared.values
    ensures var r := AfterEditSave(AfterEditStart(s));
            && Shown(r) == Shown(s)
            && r.shared.values[s.widget.field] == Text(Shown(s))
            && (s.shared.values[s.widget.field].Int? ==>
                  ParseDecimal(Display(r.shared.values[s.widget.field])) == Some(s.shared.values[s.widget.field].i))
  {
    if s.shared.values[s.widget.field].Int? {
      DecimalRoundTrip(s.shared.values[s.widget.field].i);
    }
  }

  /** Escape never touches the bound variable, and Return never touches the
      editing flag. */
  lemma CancelAndSaveFrames(s: Session)
    ensures AfterEditCancel(s).shared.values == s.shared.values
    ensures AfterEditSave(s).shared.editing == s.shared.editing
    ensures AfterEditSave(s).shared.values[s.widget.field] == Text(s.widget.buffer)
  {}

  /** The label widget. It holds references to the dashboard's flags and to
      the variables, so its callbacks change what the dashboard sees. */
  class EditableLabel {
    const name: string
    const field: Field
    const flags: UpdateState
    const vars: Variables
    var buffer: string

    constructor (vars: Variables, flags: UpdateState, name: string, field: Field)
      ensures this.vars == vars && this.flags == flags
      ensures this.name == name && this.field == field
      ensures buffer == ""
    {
      this.vars, this.flags := vars, flags;
      this.name, this.field := name, field;
      buffer := "";
    }

    function View(): Session
      reads this, flags, vars
    {
      Session(Label(name, field, buffer), Shared(flags.editing, flags.commit, vars.values))
    }

    method EditStart()
      requires field in vars.values
      modifies this, flags
      ensures View() == AfterEditStart(old(View()))
      ensures buffer == Display(vars.values[field])
      ensures flags.editing == name && flags.commit == old(flags.commit)
    {
      buffer := "";
      buffer := buffer + Display(vars.values[field]);
      flags.editing := name;
    }

    method EditSave()
      modifies flags, vars
      ensures View() == AfterEditSave(old(View()))
      ensures vars.values == old(vars.values)[field := Text(buffer)]
      ensures flags.commit == name && flags.editing == old(flags.editing)
    {
      vars.values := vars.values[field := Text(buffer)];
      flags.commit := name;
    }

    method EditStop()
      modifies flags
      ensures View() == AfterEditStop(old(View()))
      ensures flags.editing == "" && flags.commit == ""
    {
      flags.editing := "";
      flags.commit := "";
    }

    method EditCancel()
      modifies this, flags
      ensures View() == AfterEditCancel(old(View()))
      ensures buffer == "" && vars.values == old(vars.values)
      ensures flags.editing == "" && flags.commit == ""
    {
      buffer := "";
      flags.editing := "";
      flags.commit := "";
    }
  }
}
