/** The admin's barber list: add a barber, who starts as pending, approve a pending barber, and
    remove a barber. */
module GerenciarBarbeiros {
  import opened Common
  import opened Collections

  datatype BarberStatus = Ativo | Pendente | Banido

  datatype Barber = Barber(id: string, nome: string, email: string, status: BarberStatus)

  /** The barbers the screen loads. */
  const MockBarbers: seq<Barber> := [
    Barber("b1", "João Barbeiro", "joao@example.com", Ativo),
    Barber("b2", "Maria Tesoura", "maria@example.com", Pendente),
    Barber("b3", "Pedro Navalha", "pedro@example.com", Ativo)
  ]

  /** The condition `barber.id === id`. */
  function HasId(id: string): Barber -> bool {
    (b: Barber) => b.id == id
  }

  /** The condition `barber.id !== id`. */
  function NotId(id: string): Barber -> bool {
    (b: Barber) => b.id != id
  }

  /** The rewrite `{ ...barber, status: 'ativo' }`. */
  function SetActive(): Barber -> Barber {
    (b: Barber) => b.(status := Ativo)
  }

  /** The list after `handleApproveBarber(id)`: every barber with that id becomes active and
      keeps its other fields; every other barber is unchanged. */
  function Approve(barbers: seq<Barber>, id: string): (r: seq<Barber>)
    ensures |r| == |barbers|
    ensures forall i :: 0 <= i < |barbers| && barbers[i].id == id ==> r[i] == barbers[i].(status := Ativo)
    ensures forall i :: 0 <= i < |barbers| && barbers[i].id != id ==> r[i] == barbers[i]
  {
    Update(barbers, HasId(id), SetActive())
  }

  /** Approving twice is approving once. */
  lemma ApproveIdempotent(barbers: seq<Barber>, id: string)
    ensures Approve(Approve(barbers, id), id) == Approve(barbers, id)
  {
    UpdateIdempotent(barbers, HasId(id), SetActive());
  }

  /** The "Aprovar" button is drawn only for pending barbers; "Remover" for every barber. */
  predicate ApproveOffered(b: Barber)
    ensures ApproveOffered(b) ==> b.(status := Ativo) != b
    ensures b.status == Banido ==> !ApproveOffered(b)
  {
    b.status == Pendente
  }

  /** With unique ids, an offered approval changes exactly one barber, from pendente to ativo. */
  lemma OfferedApproval(barbers: seq<Barber>, j: nat)
    requires Distinct(barbers, (b: Barber) => b.id)
    requires j < |barbers| && ApproveOffered(barbers[j])
    ensures var r := Approve(barbers, barbers[j].id);
            r[j] == barbers[j].(status := Ativo) &&
            forall i :: 0 <= i < |barbers| && i != j ==> r[i] == barbers[i]
  {
  }

  /** The list after `handleRemoveBarber(id)`: exactly the barbers with another id. */
  function Without(barbers: seq<Barber>, id: string): (r: seq<Barber>)
    ensures forall b :: b in r <==> b in barbers && b.id != id
    ensures |r| == Count(barbers, NotId(id))
  {
    KeepCount(barbers, NotId(id));
    Keep(barbers, NotId(id))
  }

  /** Removal keeps the remaining barbers in their original order. */
  lemma WithoutInOrder(barbers: seq<Barber>, id: string)
    ensures Subsequence(Without(barbers, id), barbers)
  {
    KeepInOrder(barbers, NotId(id));
  }

  /** The screen's state: the list, the two fields of the add form and whether its dialog is open. */
  class Page {
    var barbers: seq<Barber>
    var newBarberName: string
    var newBarberEmail: string
    var isAddBarberDialogOpen: bool

    /** The initial state: no barbers, an empty form, the dialog closed. */
    constructor ()
      ensures barbers == [] && newBarberName == "" && newBarberEmail == "" && !isAddBarberDialogOpen
    {
      barbers := [];
      newBarberName := "";
      newBarberEmail := "";
      isAddBarberDialogOpen := false;
    }

    /** The load effect. */
    method FetchBarbers()
      modifies this
      ensures barbers == MockBarbers
      ensures newBarberName == old(newBarberName) && newBarberEmail == old(newBarberEmail)
      ensures isAddBarberDialogOpen == old(isAddBarberDialogOpen)
    {
      barbers := MockBarbers;
    }

    /** Typing in the form and opening or closing the dialog. */
    method EditForm(name: string, email: string, open: bool)
      modifies this
      ensures newBarberName == name && newBarberEmail == email && isAddBarberDialogOpen == open
      ensures barbers == old(barbers)
    {
      newBarberName, newBarberEmail, isAddBarberDialogOpen := name, email, open;
    }

    /** `handleAddBarber`: refused when the name or the e-mail is empty, which changes nothing;
        otherwise one pending barber with the typed name and e-mail is appended, the form is
        cleared and the dialog closed. `freshId` stands for the generated id. */
    method AddBarber(freshId: string) returns (added: bool)
      modifies this
      ensures added <==> old(newBarberName) != "" && old(newBarberEmail) != ""
      ensures added ==> barbers == old(barbers) + [Barber(freshId, old(newBarberName), old(newBarberEmail), Pendente)]
      ensures added ==> newBarberName == "" && newBarberEmail == "" && !isAddBarberDialogOpen
      ensures !added ==> barbers == old(barbers) && newBarberName == old(newBarberName)
                         && newBarberEmail == old(newBarberEmail) && isAddBarberDialogOpen == old(isAddBarberDialogOpen)
    {
      if newBarberName == "" || newBarberEmail == "" {
        return false;
      }
      barbers := barbers + [Barber(freshId, newBarberName, newBarberEmail, Pendente)];
      newBarberName, newBarberEmail, isAddBarberDialogOpen := "", "", false;
      return true;
    }

    /** `handleApproveBarber`. */
    method ApproveBarber(id: string)
      modifies this
      ensures barbers == Approve(old(barbers), id)
      ensures newBarberName == old(newBarberName) && newBarberEmail == old(newBarberEmail)
      ensures isAddBarberDialogOpen == old(isAddBarberDialogOpen)
    {
      barbers := Approve(barbers, id);
    }

    /** `handleRemoveBarber`. */
    method RemoveBarber(id: string)
      modifies this
      ensures barbers == Without(old(barbers), id)
      ensures newBarberName == old(newBarberName) && newBarberEmail == old(newBarberEmail)
      ensures isAddBarberDialogOpen == old(isAddBarberDialogOpen)
    {
      barbers := Without(barbers, id);
    }
  }
}
