/** The employee record of `number8.py`: a read-only id, a name and a
    department behind validating setters, and a class-wide count of the
    employees constructed. */
module Employees {
  import opened Wrappers
  import opened PyText

  /** Holds the class attribute `Employee._employee_count`, shared by every
      instance. */
  class EmployeeRegistry {
    var employeeCount: int

    constructor ()
      ensures employeeCount == 0
    {
      employeeCount := 0;
    }
  }

  /** The text of `get_employee_info()`: each field can be read back at its
      place between the fixed labels. */
  function EmployeeInfo(employeeId: int, name: string, department: string): (r: string)
    ensures var n := 13 + |Decimal(employeeId)|;
            && |r| == n + 8 + |name| + 14 + |department|
            && r[..n] == "Employee ID: " + Decimal(employeeId)
            && r[n..n + 8] == ", Name: "
            && r[n + 8..n + 8 + |name|] == name
            && r[n + 8 + |name|..] == ", Department: " + department
  {
    var id := "Employee ID: " + Decimal(employeeId);
    var dept := ", Department: " + department;
    FourParts(id, ", Name: ", name, dept);
    id + ", Name: " + name + dept
  }

  /** Each of four concatenated parts sits at its own offsets. */
  lemma FourParts(a: string, b: string, c: string, e: string)
    ensures var s := a + b + c + e;
            && |s| == |a| + |b| + |c| + |e|
            && s[..|a|] == a && s[|a|..|a| + |b|] == b
            && s[|a| + |b|..|a| + |b| + |c|] == c && s[|a| + |b| + |c|..] == e
  {
    var s := a + b + c + e;
    assert s == ((a + b) + c) + e;
    assert s[..|a| + |b| + |c|] == (a + b) + c;
    assert s[..|a| + |b|] == a + b;
  }

  /** Two strings framed by the same prefix and suffix are equal when the
      framed strings are. */
  lemma CancelFrame(p: string, a: string, b: string, t: string)
    requires p + a + t == p + b + t
    ensures a == b
  {
    var s := p + a + t;
    assert |a| == |b|;
    forall i | 0 <= i < |a|
      ensures a[i] == b[i]
    {
      assert a[i] == s[|p| + i];
      assert b[i] == (p + b + t)[|p| + i];
    }
  }

  /** For a given name and department, the info line determines the id. */
  lemma InfoIdentifiesId(id1: int, id2: int, name: string, department: string)
    requires EmployeeInfo(id1, name, department) == EmployeeInfo(id2, name, department)
    ensures id1 == id2
  {
    var tail := ", Name: " + name + ", Department: " + department;
    assert EmployeeInfo(id1, name, department) == "Employee ID: " + Decimal(id1) + tail;
    assert EmployeeInfo(id2, name, department) == "Employee ID: " + Decimal(id2) + tail;
    CancelFrame("Employee ID: ", Decimal(id1), Decimal(id2), tail);
    DecimalInjective(id1, id2);
  }

  class Employee {
    /** `_employee_id`: set once by the constructor, never reassigned. */
    const employeeId: int
    var name: string
    var department: string

    /** `Employee(employee_id, name, department)`: stores the three values as
        given, without validation, and increments the class-wide count. */
    constructor (registry: EmployeeRegistry, employeeId: int, name: string, department: string)
      modifies registry
      ensures this.employeeId == employeeId && this.name == name && this.department == department
      ensures registry.employeeCount == old(registry.employeeCount) + 1
    {
      this.employeeId := employeeId;
      this.name := name;
      this.department := department;
      registry.employeeCount := registry.employeeCount + 1;
    }

    /** `set_name`: an empty name is rejected and nothing changes; otherwise
        only the name is replaced. */
    method SetName(newName: string) returns (r: Result<(), string>)
      modifies this
      ensures newName == "" ==> r == Failure("Name must be a non-empty string") && name == old(name)
      ensures newName != "" ==> r == Success(()) && name == newName
      ensures department == old(department)
    {
      if newName == "" {
        return Failure("Name must be a non-empty string");
      }
      name := newName;
      return Success(());
    }

    /** `set_department`: an empty department is rejected and nothing changes;
        otherwise only the department is replaced. */
    method SetDepartment(newDepartment: string) returns (r: Result<(), string>)
      modifies this
      ensures newDepartment == "" ==> r == Failure("Department must be a non-empty string") && department == old(department)
      ensures newDepartment != "" ==> r == Success(()) && department == newDepartment
      ensures name == old(name)
    {
      if newDepartment == "" {
        return Failure("Department must be a non-empty string");
      }
      department := newDepartment;
      return Success(());
    }

    /** `get_employee_id()`. */
    function GetEmployeeId(): (r: int)
      ensures r == employeeId
    {
      employeeId
    }

    /** `get_employee_info()`: the labelled id, then the labelled name, then
        the labelled department. */
    function GetEmployeeInfo(): (r: string)
      reads this
      ensures var n := 13 + |Decimal(employeeId)|;
              && |r| == n + 8 + |name| + 14 + |department|
              && r[..n] == "Employee ID: " + Decimal(employeeId)
              && r[n..n + 8] == ", Name: "
              && r[n + 8..n + 8 + |name|] == name
              && r[|r| - |department| - 14..] == ", Department: " + department
    {
      EmployeeInfo(employeeId, name, department)
    }
  }

  /** The demonstration: three employees raise the count by three, and the
      setters change the fields they name and no other, whatever the outcome. */
  method Demonstration() returns (count: int, info: string)
    ensures count == 3
    ensures info == EmployeeInfo(102, "Bob Smith", "Sales")
  {
    var registry := new EmployeeRegistry();
    var alice := new Employee(registry, 101, "Alice Johnson", "Engineering");
    var bob := new Employee(registry, 102, "Bob Smith", "Marketing");
    var carol := new Employee(registry, 103, "Carol Davis", "Human Resources");
    var _ := alice.SetName("Alice Brown");
    var _ := bob.SetDepartment("Sales");
    var _ := bob.SetName("");
    count := registry.employeeCount;
    info := bob.GetEmployeeInfo();
  }
}
