/**
 Hiring in the SRP program: only Managers and Chefs can be hired, each kind
 fixes its own role and shift, and any other role is refused.
 */
module Staff {

  import opened Optional

  /** The two kinds of employee; the constructor of each fixes role and shift. */
  datatype Employee = Manager(name: string, salary: real) | Chef(name: string, salary: real) {

    function Role(): string {
      match this
      case Manager(_, _) => "Manager"
      case Chef(_, _) => "Chef"
    }

    function ShiftTime(): string {
      match this
      case Manager(_, _) => "Full Day"
      case Chef(_, _) => "Morning"
    }
  }

  /**
   `HiringManager::hireStaff` with the four console answers as inputs. The
   entered shift is read but not used: the new employee's shift comes from
   the role.
   */
  function HireStaff(name: string, role: string, salary: real, shift: string): (r: Option<Employee>)
    ensures r.Some? <==> role == "Manager" || role == "Chef"
    ensures r.Some? ==> r.value.Role() == role && r.value.name == name && r.value.salary == salary
    ensures r.Some? && role == "Manager" ==> r.value.ShiftTime() == "Full Day"
    ensures r.Some? && role == "Chef" ==> r.value.ShiftTime() == "Morning"
  {
    if role == "Manager" then Some(Manager(name, salary))
    else if role == "Chef" then Some(Chef(name, salary))
    else None
  }

  /** The shift typed in never changes the outcome. */
  lemma HireIgnoresShift(name: string, role: string, salary: real, shift1: string, shift2: string)
    ensures HireStaff(name, role, salary, shift1) == HireStaff(name, role, salary, shift2)
  {
  }
}
