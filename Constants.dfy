/** The fixtures the register starts from (constants.ts). */
module Constants {
  import opened Types

  const Categories: seq<string> := ["All", "Coffee", "Tea", "Pastries", "Sandwiches"]

  const Currencies: seq<Currency> := [
    Currency("PKR", "Pakistani Rupee", "Rs"),
    Currency("USD", "United States Dollar", "$"),
    Currency("EUR", "Euro", "€"),
    Currency("GBP", "British Pound", "£")
  ]

  /** Pakistani Rupee, the first listed currency. */
  const DefaultCurrency: Currency := Currencies[0]

  const InitialProducts: seq<Product> := [
    Product(1, "Espresso", "Coffee", 700.0, 100, "https://picsum.photos/id/225/200/200"),
    Product(2, "Latte", "Coffee", 950.0, 100, "https://picsum.photos/id/305/200/200"),
    Product(3, "Cappuccino", "Coffee", 950.0, 100, "https://picsum.photos/id/365/200/200"),
    Product(4, "Americano", "Coffee", 850.0, 100, "https://picsum.photos/id/431/200/200"),
    Product(5, "Mocha", "Coffee", 1100.0, 50, "https://picsum.photos/id/488/200/200"),
    Product(6, "Green Tea", "Tea", 600.0, 80, "https://picsum.photos/id/42/200/200"),
    Product(7, "Black Tea", "Tea", 600.0, 80, "https://picsum.photos/id/75/200/200"),
    Product(8, "Herbal Tea", "Tea", 650.0, 70, "https://picsum.photos/id/111/200/200"),
    Product(9, "Croissant", "Pastries", 750.0, 40, "https://picsum.photos/id/211/200/200"),
    Product(10, "Muffin", "Pastries", 700.0, 45, "https://picsum.photos/id/177/200/200"),
    Product(11, "Scone", "Pastries", 850.0, 30, "https://picsum.photos/id/326/200/200"),
    Product(12, "Danish", "Pastries", 900.0, 35, "https://picsum.photos/id/368/200/200"),
    Product(13, "Turkey Club", "Sandwiches", 2300.0, 20, "https://picsum.photos/id/1080/200/200"),
    Product(14, "Ham & Cheese", "Sandwiches", 2000.0, 25, "https://picsum.photos/id/1078/200/200"),
    Product(15, "Veggie Wrap", "Sandwiches", 1900.0, 30, "https://picsum.photos/id/1060/200/200"),
    Product(16, "Iced Coffee", "Coffee", 1000.0, 60, "https://picsum.photos/id/569/200/200")
  ]

  /** 8% sales tax. */
  const InitialTaxRate: real := 0.08

  /** The default party of a sale; the register refuses to delete it. */
  const WalkInCustomerId: int := 1

  const InitialCustomers: seq<Customer> := [
    Customer(WalkInCustomerId, "Walk-in Customer", "", Some(0.0), Some(false)),
    Customer(2, "John Doe", "john.d@example.com", Some(15000.0), Some(false)),
    Customer(3, "Jane Smith", "jane.s@example.com", Some(52000.0), Some(true))
  ]

  const UserRoles: seq<UserRole> := [Admin, Cashier, Salesman]

  const InitialUsers: seq<User> := [
    User(1, "Admin User", "admin@pos.com", "password", Admin),
    User(2, "Cashier User", "cashier@pos.com", "password", Cashier),
    User(3, "Salesman User", "salesman@pos.com", "password", Salesman)
  ]
}
