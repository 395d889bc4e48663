/** The login form: a selected role (customer by default) and two text
    fields that the submit handler never reads. */
module Login {
  import opened Wrappers
  import opened ClaimTypes
  import opened Auth
  import opened Routing

  class LoginForm {
    var selectedRole: UserRole
    var username: string
    var password: string

    constructor()
      ensures selectedRole == Customer && username == "" && password == ""
    {
      selectedRole := Customer;
      username := "";
      password := "";
    }

    /** The radio group's change handler. */
    method SelectRole(role: UserRole)
      modifies this
      ensures selectedRole == role && username == old(username) && password == old(password)
    {
      selectedRole := role;
    }

    method SetUsername(value: string)
      modifies this
      ensures username == value && selectedRole == old(selectedRole) && password == old(password)
    {
      username := value;
    }

    method SetPassword(value: string)
      modifies this
      ensures password == value && selectedRole == old(selectedRole) && username == old(username)
    {
      password := value;
    }

    /** Submitting signs in as exactly the selected role, whatever the username
        and password hold (both may be empty), and returns that role's
        dashboard, which the route guard then renders. */
    method HandleLogin(session: AuthSession) returns (target: string)
      modifies session
      ensures session.user == Some(MockUser(selectedRole))
      ensures target == DashboardPath(selectedRole)
      ensures Resolve(session.user, target) == Render(DashboardPage(selectedRole))
    {
      session.Login(selectedRole);
      target := DashboardPath(selectedRole);
      DashboardAdmitsOwnRole(MockUser(selectedRole));
    }
  }

  /** The default form, submitted untouched, signs in a customer and lands on the customer dashboard. */
  method SubmitDefaultForm(session: AuthSession) returns (target: string)
    modifies session
    ensures session.user == Some(MockUser(Customer))
    ensures target == "/customer"
  {
    var form := new LoginForm();
    target := form.HandleLogin(session);
  }
}
