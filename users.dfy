/** The signed-in user's profile record (Models/User.swift). */
module Users {
  datatype User = User(id: string, email: string, favorites: seq<string>)
}
