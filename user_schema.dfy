// The User model and the cart line embedded in it (userSchema.js).
module UserSchema {
  import opened Common

  /** One line of a cart: a reference to an Item and how many of it. */
  datatype CartLine = CartLine(productId: ObjectId, quantity: int)

  /** A user document. The email is the key of the users table (the schema
      declares it unique), so it is not repeated inside the record. */
  datatype User = User(username: string, password: string, location: string, cart: seq<CartLine>)

  const UsernameMinLength: nat := 3
  const PasswordMinLength: nat := 6
  const MinLineQuantity: int := 1

  /** The length JavaScript reports for a string (`.length`): UTF-16 code
      units, two for a character outside the Basic Multilingual Plane. */
  function Utf16Length(s: string): nat {
    if s == [] then 0
    else Utf16Length(s[..|s| - 1]) + (if s[|s| - 1] as int >= 0x1_0000 then 2 else 1)
  }

  /** A string has between one and two UTF-16 code units per character. */
  lemma {:induction false} Utf16LengthBounds(s: string)
    ensures |s| <= Utf16Length(s) <= 2 * |s|
  {
    if s != [] {
      Utf16LengthBounds(s[..|s| - 1]);
    }
  }

  /** The validators Mongoose runs when a user document is saved:
      `minLength` on username and password, counted in UTF-16 code units, and
      `min: 1` on each cart line. A name of at least 3 characters always
      passes; one that passes has at least 2 characters. */
  function ValidUser(u: User): (b: bool)
    ensures (&& |u.username| >= UsernameMinLength
             && |u.password| >= PasswordMinLength
             && forall i :: 0 <= i < |u.cart| ==> u.cart[i].quantity >= MinLineQuantity) ==> b
    ensures b ==> 2 * |u.username| >= UsernameMinLength && 2 * |u.password| >= PasswordMinLength
    ensures b ==> forall i :: 0 <= i < |u.cart| ==> u.cart[i].quantity >= MinLineQuantity
  {
    Utf16LengthBounds(u.username);
    Utf16LengthBounds(u.password);
    && Utf16Length(u.username) >= UsernameMinLength
    && Utf16Length(u.password) >= PasswordMinLength
    && forall i :: 0 <= i < |u.cart| ==> u.cart[i].quantity >= MinLineQuantity
  }

  /** A user built from a registration request: no cart is given, so it is empty. */
  function NewUser(username: string, password: string, location: string): (u: User)
    ensures u.username == username && u.password == password && u.location == location
    ensures u.cart == []
  {
    User(username, password, location, [])
  }
}
