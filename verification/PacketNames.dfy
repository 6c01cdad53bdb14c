/** Packet ids such as 0001-E02-T03, and the initiative and epic they name. */
module PacketNames {

  predicate Digit(c: char) { '0' <= c <= '9' }

  // Both patterns: ^([0-9]{4})-(E[0-9]{2})-(T[0-9]{2})$.
  predicate NamesTask(id: string) {
    && |id| == 12
    && Digit(id[0]) && Digit(id[1]) && Digit(id[2]) && Digit(id[3]) && id[4] == '-'
    && id[5] == 'E' && Digit(id[6]) && Digit(id[7]) && id[8] == '-'
    && id[9] == 'T' && Digit(id[10]) && Digit(id[11])
  }

  // The view's first two groups.
  function InitiativeOf(id: string): string
    requires NamesTask(id)
  {
    id[..4]
  }

  function EpicOf(id: string): string
    requires NamesTask(id)
  {
    id[5..8]
  }

  // packetInScope's prefix test.
  predicate InScope(id: string, initiative: string, epic: string) {
    initiative + "-" + epic + "-" <= id
  }

  /** The prefix test finds exactly the initiative and epic the pattern names, whatever dashes
      the two texts contain. */
  lemma ScopeIsNamed(id: string, initiative: string, epic: string)
    requires NamesTask(id)
    ensures InScope(id, initiative, epic) <==> (initiative == InitiativeOf(id) && epic == EpicOf(id))
  {
    var prefix := initiative + "-" + epic + "-";
    if InScope(id, initiative, epic) {
      var n, m := |initiative|, |initiative| + 1 + |epic|;
      assert prefix[n] == '-' && prefix[m] == '-';
      assert id[n] == '-' && id[m] == '-';
      assert n == 4 && m == 8;
      assert initiative == prefix[..4] == id[..4];
      assert epic == prefix[5..8] == id[5..8];
    }
    if initiative == InitiativeOf(id) && epic == EpicOf(id) {
      assert prefix == id[..9];
    }
  }
}
