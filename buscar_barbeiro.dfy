/** The client's barber search: the list is filtered by a case-insensitive substring of the name. */
module BuscarBarbeiro {
  import opened Collections
  import opened Text

  datatype Barber = Barber(id: string, nome: string, descricao: string, fotoUrl: string, rating: real)

  /** The barbers the screen loads. */
  const MockBarbers: seq<Barber> := [
    Barber("b1", "João Barbeiro", "Especialista em cortes clássicos e modernos.", "https://github.com/shadcn.png", 4.8),
    Barber("b2", "Maria Tesoura", "Cortes femininos e masculinos, coloração e tratamentos.", "https://api.dicebear.com/7.x/lorelei/svg?seed=Maria", 4.9),
    Barber("b3", "Pedro Navalha", "Barbas impecáveis e design de sobrancelhas.", "https://api.dicebear.com/7.x/lorelei/svg?seed=Pedro", 4.5),
    Barber("b4", "Ana Estilosa", "Últimas tendências em cortes e penteados.", "https://api.dicebear.com/7.x/lorelei/svg?seed=Ana", 4.7)
  ]

  /** The condition `barber.nome.toLowerCase().includes(searchTerm.toLowerCase())`. */
  function NameMatches(searchTerm: string): Barber -> bool {
    (b: Barber) => Contains(Lower(b.nome), Lower(searchTerm))
  }

  /** `filteredBarbers`: exactly the barbers whose lower-cased name holds the lower-cased term
      somewhere. */
  function FilteredBarbers(barbers: seq<Barber>, searchTerm: string): (r: seq<Barber>)
    ensures forall b :: b in r <==> b in barbers && Contains(Lower(b.nome), Lower(searchTerm))
    ensures |r| == Count(barbers, NameMatches(searchTerm))
  {
    KeepCount(barbers, NameMatches(searchTerm));
    Keep(barbers, NameMatches(searchTerm))
  }

  /** A barber is in the result exactly when the lower-cased term occurs at some position of
      their lower-cased name. */
  lemma FilteredIffOccurs(barbers: seq<Barber>, searchTerm: string, b: Barber)
    ensures b in FilteredBarbers(barbers, searchTerm) <==>
            b in barbers && exists k :: OccursAt(Lower(b.nome), Lower(searchTerm), k)
  {
    ContainsIff(Lower(b.nome), Lower(searchTerm));
  }

  /** The result lists the matching barbers in the order of the loaded list. */
  lemma FilteredInOrder(barbers: seq<Barber>, searchTerm: string)
    ensures Subsequence(FilteredBarbers(barbers, searchTerm), barbers)
  {
    KeepInOrder(barbers, NameMatches(searchTerm));
  }

  /** An empty search box shows every barber. */
  lemma EmptyTermShowsAll(barbers: seq<Barber>)
    ensures FilteredBarbers(barbers, "") == barbers
  {
    forall i | 0 <= i < |barbers| ensures NameMatches("")(barbers[i]) {
      ContainsEmpty(Lower(barbers[i].nome));
    }
    KeepAll(barbers, NameMatches(""));
  }

  /** The search ignores case: two terms that lower-case alike give the same result. */
  lemma CaseInsensitive(barbers: seq<Barber>, t1: string, t2: string)
    requires Lower(t1) == Lower(t2)
    ensures FilteredBarbers(barbers, t1) == FilteredBarbers(barbers, t2)
  {
    KeepCongruent(barbers, NameMatches(t1), NameMatches(t2));
  }

  /** Searching again inside a result with the same term changes nothing. */
  lemma FilterIdempotent(barbers: seq<Barber>, searchTerm: string)
    ensures FilteredBarbers(FilteredBarbers(barbers, searchTerm), searchTerm) == FilteredBarbers(barbers, searchTerm)
  {
    KeepIdempotent(barbers, NameMatches(searchTerm));
  }

  /** The link of a result card: `/barbeiro/${barber.id}`. */
  function ProfileLink(id: string): (r: string)
    ensures '/' !in id ==> Split(r, '/') == ["", "barbeiro", id]
  {
    var r := "/barbeiro/" + id;
    if '/' !in id then
      SplitSingle(id, '/');
      SplitConcat("barbeiro", id, '/');
      SplitConcat("", "barbeiro" + "/" + id, '/');
      assert r == "" + "/" + ("barbeiro" + "/" + id);
      r
    else r
  }
}
