/** Types shared by several screens of the barbershop application. */
module Common {

  /** A value that may be absent (`null` / `undefined` in the application). */
  datatype Option<+T> = None | Some(value: T)

  /** The three roles of `UserRole` other than `null`; at run time a role is a plain string. */
  type Role = s: string | s == "admin" || s == "barber" || s == "client" witness "client"

  /** JavaScript truthiness of a possibly-null string: `null` and `''` are falsy. */
  predicate Truthy(s: Option<string>) {
    s.Some? && s.value != ""
  }

  /** What a submit button does: shows an error toast with the message, or navigates to a path. */
  datatype Outcome = Refused(message: string) | Navigate(to: string)

  /** The landing page, the login page and the registration page. */
  const RootPath := "/"
  const LoginPath := "/login"
  const RegisterPath := "/register"

  /** The dashboard each role is sent to; anything else goes to the landing page `/`.
      The same `switch` appears in the login page, the registration page and the route guard. */
  function Dashboard(role: string): (path: string)
    ensures role == "admin" <==> path == "/admin"
    ensures role == "barber" <==> path == "/barber"
    ensures role == "client" <==> path == "/client"
    ensures role !in {"admin", "barber", "client"} <==> path == RootPath
  {
    if role == "admin" then "/admin"
    else if role == "barber" then "/barber"
    else if role == "client" then "/client"
    else RootPath
  }
}

/** The status of an appointment, shared by the barber, client and admin appointment screens. */
module AppointmentStatus {

  datatype Status = Pendente | Confirmado | Recusado | Cancelado

  /** The statuses a barber or admin may choose when answering a pending request. */
  type Decision = s: Status | s == Confirmado || s == Recusado witness Confirmado

  /** The status changes that answering requests can make: none, or a pending request
      confirmed or declined. */
  predicate Answered(before: Status, after: Status) {
    before == after || (before == Pendente && (after == Confirmado || after == Recusado))
  }

  /** Answering twice is still answering: no request is answered more than once. */
  lemma AnsweredTransitive(a: Status, b: Status, c: Status)
    requires Answered(a, b) && Answered(b, c)
    ensures Answered(a, c)
  {
  }
}

/** A bookable slot of a barber's agenda, as the barber profile and the booking screen hold it. */
module Schedule {

  datatype TimeSlot = TimeSlot(id: string, barberId: string, data: string, horario: string, disponivel: bool)
}
