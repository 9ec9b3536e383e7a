/** Characters by their codes, for the grammars of identifiers and codes. */
module Ascii {

  ghost predicate Lower(c: char) { 97 <= c as int < 123 }

  ghost predicate Upper(c: char) { 65 <= c as int < 91 }

  ghost predicate Digit(c: char) { 48 <= c as int < 58 }

  ghost predicate Plain(c: char) { Lower(c) || Upper(c) || Digit(c) }
}
